/** The life of an aggregate group: its row, its leader, the workers that hold the
    leader one after another, and the approval service, with a crash allowed anywhere. */
module GroupProtocol {
  import opened Options
  import opened Tables
  import opened Execution
  import opened Maintenance

  /** Where a worker stands between two database writes. `prior` is the phase the group
      row showed before the create request was announced. */
  datatype Pc =
    | Held
    | Loaded(phase: Phase, code: Option<Code>)
    | Sent(prior: Phase)
    | Accepted(prior: Phase, made: Code)
    | Conflicted
    | Refused(prior: Phase)
    | Unheard
    | Searching
    | Found(there: Code)
    | Missing
    | Settled(known: Code)
    | Idle

  datatype Actor = Actor(claim: Claim, key: GroupKey, pc: Pc)

  /** `service` maps an idempotency key to the instance made under it; `retired` holds
      the keys of group rows removed without looking at their phase. */
  datatype State = State(
    db: Db,
    now: int,
    service: map<Uuid, Code>,
    actors: map<nat, Actor>,
    nextOwner: nat,
    retired: set<Uuid>)

  datatype Event =
    | Tick(dt: nat)
    | Sweep
    | Take(id: int, key: GroupKey)
    | Load(o: nat)
    | Announce(o: nat)
    | Execute(o: nat, code: Code)
    | Refuse(o: nat)
    | Lose(o: nat)
    | Confirm(o: nat)
    | MarkUnknown(o: nat)
    | Search(o: nat, seen: bool)
    | ConfirmSearch(o: nat)
    | Finish(o: nat, state: TaskState, serial: Option<string>, reason: Option<string>, retry: bool)
    | Crash(o: nat)
    | DropMember(o: nat, id: int, why: string)
    | ReopenLeader(id: int, key: GroupKey, anySelected: bool)
    | Dissolve(key: GroupKey)
    | Seed(key: GroupKey, row: GroupRow, rows: map<int, TaskRow>)
    | Leave(id: int, key: GroupKey, heir: int)
    | Cleanup(key: GroupKey)

  predicate At(s: State, o: nat) {
    o in s.actors
  }

  /** The actor still owns the leader of its group. */
  predicate Acting(s: State, o: nat) {
    && At(s, o)
    && OwnsLeader(s.db, s.now, s.actors[o].claim, s.actors[o].key)
    && s.actors[o].key in s.db.groups
  }

  function GroupOf(s: State, o: nat): GroupRow
    requires Acting(s, o)
  {
    s.db.groups[s.actors[o].key]
  }

  function LiveUuids(s: State): set<Uuid> {
    set key | key in s.db.groups :: s.db.groups[key].uuid
  }

  function Moved(s: State, o: nat, pc: Pc): State
    requires At(s, o)
  {
    s.(actors := s.actors[o := s.actors[o].(pc := pc)])
  }

  /** A create is sent only when the row shows no code and no pending lookup. */
  predicate MaySend(pc: Pc) {
    pc.Loaded? && pc.code.None? && pc.phase != Lookup
  }

  predicate Enabled(s: State, e: Event) {
    match e
    case Tick(_) => true
    case Sweep => true
    case Take(id, key) =>
      && id in s.db.tasks && IsLeader(s.db.tasks[id], key)
      && Claimable(s.db.tasks[id], s.now, false)
    case Load(o) => Acting(s, o) && s.actors[o].pc.Held?
    case Announce(o) =>
      && At(s, o) && MaySend(s.actors[o].pc)
      && CanBeginGroup(s.db, s.now, s.actors[o].claim, s.actors[o].key)
    // A request lands while its sender counts as alive, or never.
    case Execute(o, _) => Acting(s, o) && s.actors[o].pc.Sent?
    case Refuse(o) => At(s, o) && s.actors[o].pc.Sent?
    case Lose(o) => At(s, o) && (s.actors[o].pc.Sent? || s.actors[o].pc.Accepted? || s.actors[o].pc.Conflicted? || s.actors[o].pc.Refused?)
    case Confirm(o) => At(s, o) && (s.actors[o].pc.Accepted? || s.actors[o].pc.Conflicted? || s.actors[o].pc.Refused?)
    case MarkUnknown(o) => At(s, o) && s.actors[o].pc.Unheard?
    // The service may not show an instance it has; it shows none it has not.
    case Search(o, _) =>
      && Acting(s, o)
      && (s.actors[o].pc.Searching? || s.actors[o].pc == Loaded(Lookup, None))
    case ConfirmSearch(o) => At(s, o) && (s.actors[o].pc.Found? || s.actors[o].pc.Missing?)
    case Finish(o, state, serial, reason, retry) =>
      && At(s, o)
      && (serial.Some? ==> s.actors[o].pc.Settled? || (s.actors[o].pc.Loaded? && s.actors[o].pc.code.Some?))
    case Crash(o) => At(s, o)
    case DropMember(o, id, _) =>
      && At(s, o) && ((s.actors[o].pc.Loaded? && s.actors[o].pc.code.Some?) || s.actors[o].pc.Settled?)
      && id != s.actors[o].claim.id && id in s.db.tasks
    case ReopenLeader(id, key, anySelected) =>
      && key in s.db.groups && id in s.db.tasks && IsLeader(s.db.tasks[id], key)
      && ReopenNeeded(s.db.groups[key], s.db.tasks[id], anySelected)
      && CanReopen(s.db, s.now, id)
    case Dissolve(key) => Untried(s.db, s.now, key) && CanDissolve(s.db, s.now, key)
    case Seed(key, row, rows) =>
      && key !in s.db.groups
      && row.phase == Ready && row.instance.None?
      && row.uuid !in LiveUuids(s) && row.uuid !in s.retired
      && rows.Keys !! s.db.tasks.Keys
      && (forall id :: id in rows ==> rows[id] == NewTask(key.config, rows[id].record, Some(key), rows[id].rank))
      && (forall i, j :: i in rows && j in rows && rows[i].rank == 0 && rows[j].rank == 0 ==> i == j)
    case Leave(id, key, heir) =>
      && id in s.db.tasks && IsMember(s.db, key, id) && HeirOk(s.db, key, id, heir)
      && !GroupBusy(s.db, s.now, key)
    case Cleanup(key) => key in s.db.groups && Members(s.db, key) == {}
  }

  function Retire(s: State, key: GroupKey): set<Uuid> {
    if key in s.db.groups then s.retired + {s.db.groups[key].uuid} else s.retired
  }

  function Next(s: State, e: Event): State
    requires Enabled(s, e)
  {
    match e
    case Tick(dt) => s.(now := s.now + dt)
    case Sweep => s.(db := Swept(s.db, s.now))
    case Take(id, key) =>
      s.(db := Claimed(s.db, s.now, id, s.nextOwner),
         actors := s.actors[s.nextOwner := Actor(ClaimOf(s.db.tasks[id], id, s.nextOwner), key, Held)],
         nextOwner := s.nextOwner + 1)
    case Load(o) => Moved(s, o, Loaded(GroupOf(s, o).phase, GroupOf(s, o).instance))
    case Announce(o) =>
      var a := s.actors[o];
      Moved(s, o, Sent(a.pc.phase)).(db := BegunGroup(s.db, s.now, a.claim, a.key, Creating))
    case Execute(o, code) =>
      var uuid := GroupOf(s, o).uuid;
      if uuid in s.service then Moved(s, o, Conflicted)
      else Moved(s, o, Accepted(s.actors[o].pc.prior, code)).(service := s.service[uuid := code])
    case Refuse(o) => Moved(s, o, Refused(s.actors[o].pc.prior))
    case Lose(o) => Moved(s, o, Unheard)
    case Confirm(o) =>
      var a := s.actors[o];
      if !CanConfirmGroup(s.db, s.now, a.claim, a.key) then Moved(s, o, Idle)
      else if a.pc.Accepted? then
        Moved(s, o, Settled(a.pc.made)).(db := ConfirmedGroup(s.db, s.now, a.claim, a.key, Created, Some(a.pc.made)))
      else if a.pc.Conflicted? then
        Moved(s, o, Searching).(db := ConfirmedGroup(s.db, s.now, a.claim, a.key, Lookup, None))
      else
        // The create may be repeated at once, under the same claim.
        Moved(s, o, Loaded(Ready, None)).(db := ConfirmedGroup(s.db, s.now, a.claim, a.key, Ready, None))
    case MarkUnknown(o) => Moved(s, o, Idle).(db := MarkedUnknown(s.db, s.actors[o].claim))
    case Search(o, seen) =>
      var uuid := GroupOf(s, o).uuid;
      Moved(s, o, if seen && uuid in s.service then Found(s.service[uuid]) else Missing)
    case ConfirmSearch(o) =>
      var a := s.actors[o];
      if !CanConfirmGroup(s.db, s.now, a.claim, a.key) then Moved(s, o, Idle)
      else if a.pc.Found? then
        Moved(s, o, Settled(a.pc.there)).(db := ConfirmedGroup(s.db, s.now, a.claim, a.key, Created, Some(a.pc.there)))
      else
        Moved(s, o, Idle).(db := ConfirmedGroup(s.db, s.now, a.claim, a.key, Ready, None))
    case Finish(o, state, serial, reason, retry) =>
      var a := s.actors[o];
      s.(db := FinishedGroup(s.db, s.now, a.claim, a.key, state, serial, reason, retry), actors := s.actors - {o})
    case Crash(o) => s.(actors := s.actors - {o})
    case DropMember(_, id, why) => s.(db := Dropped(s.db, id, why))
    case ReopenLeader(id, key, _) => s.(db := ReopenedAt(s.db, s.now, id, LeaderPhase(s.db.groups[key])))
    case Dissolve(key) => s.(db := Dissolved(s.db, s.now, key))
    case Seed(key, row, rows) =>
      s.(db := s.db.(tasks := s.db.tasks + rows, groups := s.db.groups[key := row]))
    case Leave(id, key, heir) =>
      s.(db := Detached(s.db, key, id, heir),
         retired := if Members(s.db, key) == {id} then Retire(s, key) else s.retired)
    case Cleanup(key) => s.(db := s.db.(groups := s.db.groups - {key}), retired := Retire(s, key))
  }

  // ----- what every run keeps ---------------------------------------------

  /** Owner numbers are never handed out twice. */
  predicate OwnersFresh(s: State) {
    ActorsNumbered(s) && HoldersNumbered(s)
  }

  predicate ActorsNumbered(s: State) {
    forall o :: o in s.actors ==> o < s.nextOwner && s.actors[o].claim.owner == o
  }

  predicate HoldersNumbered(s: State) {
    forall id :: id in s.db.tasks && s.db.tasks[id].holder.Some? ==> s.db.tasks[id].holder.value.owner < s.nextOwner
  }

  ghost predicate OneLeader(s: State) {
    forall i, j, key ::
      (i in s.db.tasks && j in s.db.tasks && IsLeader(s.db.tasks[i], key) && IsLeader(s.db.tasks[j], key)) ==> i == j
  }

  predicate GroupsPresent(s: State) {
    forall id :: id in s.db.tasks && s.db.tasks[id].group.Some? ==> s.db.tasks[id].group.value in s.db.groups
  }

  predicate UuidsDistinct(s: State) {
    && (forall k, l :: k in s.db.groups && l in s.db.groups && s.db.groups[k].uuid == s.db.groups[l].uuid ==> k == l)
    && (forall k :: k in s.db.groups ==> s.db.groups[k].uuid !in s.retired)
  }

  /** A recorded code is the service's own, and only the phase `created` records one. A
      lookup is pending only where the service has an instance: it said so itself. */
  predicate CodeAgrees(s: State, g: GroupRow) {
    && (g.instance.Some? <==> g.phase == Created)
    && (g.instance.Some? ==> g.uuid in s.service && s.service[g.uuid] == g.instance.value)
    && (g.phase == Lookup ==> g.uuid in s.service)
  }

  predicate CodesAgree(s: State) {
    forall k :: k in s.db.groups ==> CodeAgrees(s, s.db.groups[k])
  }

  /** What an owner remembers is still what the tables and the service say. */
  predicate MemoryHolds(s: State, o: nat)
    requires Acting(s, o)
  {
    var g := GroupOf(s, o);
    var there := g.uuid in s.service;
    match s.actors[o].pc
    case Held => true
    case Loaded(phase, code) => g.phase == phase && g.instance == code
    case Sent(_) => g.phase == Creating
    case Accepted(_, made) => g.phase == Creating && there && s.service[g.uuid] == made
    case Conflicted => g.phase == Creating && there
    case Refused(_) => g.phase == Creating
    case Unheard => g.phase == Creating
    case Searching => g.phase == Lookup
    case Found(code) => g.phase == Lookup && there && s.service[g.uuid] == code
    case Missing => g.phase == Lookup
    case Settled(code) => g.phase == Created && g.instance == Some(code)
    case Idle => true
  }

  ghost predicate MemoriesHold(s: State) {
    forall o :: Acting(s, o) ==> MemoryHolds(s, o)
  }

  ghost predicate Inv(s: State) {
    OwnersFresh(s) && OneLeader(s) && GroupsPresent(s) && UuidsDistinct(s) && CodesAgree(s) && MemoriesHold(s)
  }

  /** At most one actor owns a group at a time. */
  lemma OneOwner(s: State, o: nat, p: nat)
    requires Inv(s) && Acting(s, o) && Acting(s, p) && s.actors[o].key == s.actors[p].key
    ensures o == p
  {
    assert s.actors[o].claim.id == s.actors[p].claim.id;
  }

  lemma ActorsStep(s: State, e: Event)
    requires ActorsNumbered(s) && Enabled(s, e)
    ensures ActorsNumbered(Next(s, e))
  {
  }

  lemma HoldersStep(s: State, e: Event)
    requires ActorsNumbered(s) && HoldersNumbered(s) && Enabled(s, e)
    ensures HoldersNumbered(Next(s, e))
  {
    if Reshapes(e) { HoldersReshaped(s, e); }
  }

  lemma HoldersReshaped(s: State, e: Event)
    requires HoldersNumbered(s) && Enabled(s, e) && Reshapes(e)
    ensures HoldersNumbered(Next(s, e))
  {
  }

  lemma OwnersStep(s: State, e: Event)
    requires OwnersFresh(s) && Enabled(s, e)
    ensures OwnersFresh(Next(s, e))
  {
    ActorsStep(s, e);
    HoldersStep(s, e);
  }

  lemma LeaveKeepsGroups(s: State, id: int, key: GroupKey, heir: int)
    requires OneLeader(s) && GroupsPresent(s) && Enabled(s, Leave(id, key, heir))
    ensures OneLeader(Next(s, Leave(id, key, heir))) && GroupsPresent(Next(s, Leave(id, key, heir)))
  {
    var t := Next(s, Leave(id, key, heir));
    forall j | j in t.db.tasks && t.db.tasks[j].group.Some?
      ensures t.db.tasks[j].group.value in t.db.groups
    {
      assert j in s.db.tasks && s.db.tasks[j].group == t.db.tasks[j].group;
      assert InGroup(s.db.tasks[j], key) ==> j in Members(s.db, key);
    }
  }

  /** Membership and positions are the same in both tables, and no group row is gone. */
  predicate SameShape(d: Db, e: Db) {
    && e.tasks.Keys == d.tasks.Keys && e.groups.Keys == d.groups.Keys
    && (forall id :: id in d.tasks ==> e.tasks[id].group == d.tasks[id].group && e.tasks[id].rank == d.tasks[id].rank)
  }

  /** Events that add, remove or regroup rows. */
  predicate Reshapes(e: Event) {
    e.Dissolve? || e.Seed? || e.Leave? || e.Cleanup? || e.DropMember?
  }

  lemma ShapeKept(s: State, e: Event)
    requires Enabled(s, e) && !Reshapes(e)
    ensures SameShape(s.db, Next(s, e).db)
  {
    if Writes(e) { ShapeKeptByWrite(s, e); }
  }

  lemma ShapeKeptByWrite(s: State, e: Event)
    requires Enabled(s, e) && !Reshapes(e) && Writes(e)
    ensures SameShape(s.db, Next(s, e).db)
  {
  }

  lemma LeaderStep(s: State, e: Event)
    requires OneLeader(s) && GroupsPresent(s) && Enabled(s, e)
    ensures OneLeader(Next(s, e)) && GroupsPresent(Next(s, e))
  {
    if !Reshapes(e) {
      ShapeKept(s, e);
      SameShapeKeeps(s, Next(s, e));
    } else {
      match e
      case Leave(id, key, heir) => LeaveKeepsGroups(s, id, key, heir);
      case Cleanup(key) =>
        assert forall id :: id in s.db.tasks && InGroup(s.db.tasks[id], key) ==> id in Members(s.db, key);
      case Dissolve(_) =>
      case Seed(_, _, _) =>
      case DropMember(_, _, _) =>
    }
  }

  lemma SameShapeKeeps(s: State, t: State)
    requires OneLeader(s) && GroupsPresent(s) && SameShape(s.db, t.db)
    ensures OneLeader(t) && GroupsPresent(t)
  {
    forall i, j, key | i in t.db.tasks && j in t.db.tasks && IsLeader(t.db.tasks[i], key) && IsLeader(t.db.tasks[j], key)
      ensures i == j
    {
      assert IsLeader(s.db.tasks[i], key) && IsLeader(s.db.tasks[j], key);
    }
  }

  lemma UuidStep(s: State, e: Event)
    requires UuidsDistinct(s) && Enabled(s, e)
    ensures UuidsDistinct(Next(s, e))
  {
    if !e.Seed? { UuidsKept(s, e); }
  }

  lemma UuidsKept(s: State, e: Event)
    requires Enabled(s, e) && !e.Seed?
    ensures forall k :: k in Next(s, e).db.groups ==> k in s.db.groups && Next(s, e).db.groups[k].uuid == s.db.groups[k].uuid
    ensures s.retired <= Next(s, e).retired
    ensures forall u :: u in Next(s, e).retired ==> u in s.retired || exists k :: k in s.db.groups && k !in Next(s, e).db.groups && s.db.groups[k].uuid == u
  {
  }

  /** The actor an event belongs to. */
  function By(e: Event): Option<nat> {
    match e
    case Load(o) => Some(o)
    case Announce(o) => Some(o)
    case Execute(o, _) => Some(o)
    case Refuse(o) => Some(o)
    case Lose(o) => Some(o)
    case Confirm(o) => Some(o)
    case MarkUnknown(o) => Some(o)
    case Search(o, _) => Some(o)
    case ConfirmSearch(o) => Some(o)
    case Finish(o, _, _, _, _) => Some(o)
    case Crash(o) => Some(o)
    case _ => None
  }

  /** Ownership of a group is gained by taking its leader and in no other way. */
  lemma NoGain(s: State, e: Event, p: nat)
    requires Inv(s) && Enabled(s, e) && Acting(Next(s, e), p)
    requires !(e.Take? && p == s.nextOwner)
    ensures Acting(s, p)
    ensures Next(s, e).actors[p].claim == s.actors[p].claim && Next(s, e).actors[p].key == s.actors[p].key
    ensures By(e) != Some(p) ==> Next(s, e).actors[p].pc == s.actors[p].pc
  {
    if Reshapes(e) {
      NoGainByReshaping(s, e, p);
    } else {
      ShapeKept(s, e);
      NoGainInPlace(s, e, p);
    }
  }

  lemma NoGainByReshaping(s: State, e: Event, p: nat)
    requires Inv(s) && Enabled(s, e) && Acting(Next(s, e), p) && Reshapes(e)
    ensures Acting(s, p) && Next(s, e).actors[p] == s.actors[p]
  {
    ActorKept(s, e, p);
    match e
    case Leave(id, key, heir) => StaysByLeave(s, id, key, heir, p);
    case _ =>
  }

  /** Nobody owns the row that takes over: no member of the group has a live lease. */
  lemma HeirIsFree(s: State, id: int, key: GroupKey, heir: int, c: Claim)
    requires Enabled(s, Leave(id, key, heir)) && c.id in Members(s.db, key)
    ensures !Owned(s.db, s.now, c)
  {
  }

  lemma RowByLeave(s: State, id: int, key: GroupKey, heir: int, j: int)
    requires Enabled(s, Leave(id, key, heir)) && j in s.db.tasks && j !in Members(s.db, key)
    ensures var t := Next(s, Leave(id, key, heir)); j in t.db.tasks && t.db.tasks[j] == s.db.tasks[j]
  {
  }

  lemma LeaveFreesNone(s: State, id: int, key: GroupKey, heir: int, c: Claim)
    requires Enabled(s, Leave(id, key, heir)) && c.id in Members(s.db, key)
    ensures !Owned(Next(s, Leave(id, key, heir)).db, s.now, c)
  {
    HeirIsFree(s, id, key, heir, c);
  }

  lemma StaysByLeave(s: State, id: int, key: GroupKey, heir: int, p: nat)
    requires Inv(s) && Enabled(s, Leave(id, key, heir)) && p in s.actors && Acting(Next(s, Leave(id, key, heir)), p)
    ensures Acting(s, p)
  {
    var a := s.actors[p];
    if a.claim.id in Members(s.db, key) {
      LeaveFreesNone(s, id, key, heir, a.claim);
    } else {
      RowByLeave(s, id, key, heir, a.claim.id);
    }
  }

  lemma ActorKept(s: State, e: Event, p: nat)
    requires Enabled(s, e) && p in Next(s, e).actors && !(e.Take? && p == s.nextOwner)
    ensures p in s.actors
    ensures Next(s, e).actors[p].claim == s.actors[p].claim && Next(s, e).actors[p].key == s.actors[p].key
    ensures By(e) != Some(p) ==> Next(s, e).actors[p].pc == s.actors[p].pc
  {
  }

  lemma NoGainInPlace(s: State, e: Event, p: nat)
    requires Inv(s) && Enabled(s, e) && Acting(Next(s, e), p) && !Reshapes(e)
    requires SameShape(s.db, Next(s, e).db)
    requires !(e.Take? && p == s.nextOwner)
    ensures Acting(s, p)
    ensures Next(s, e).actors[p].claim == s.actors[p].claim && Next(s, e).actors[p].key == s.actors[p].key
    ensures By(e) != Some(p) ==> Next(s, e).actors[p].pc == s.actors[p].pc
  {
    ActorKept(s, e, p);
    OwnershipNotGained(s, e, s.actors[p].claim);
  }

  /** No write of a worker or of a click makes an existing claim own its row again. */
  lemma OwnershipNotGained(s: State, e: Event, c: Claim)
    requires Inv(s) && Enabled(s, e) && !Reshapes(e) && c.owner < s.nextOwner
    requires Owned(Next(s, e).db, Next(s, e).now, c)
    requires c.id in s.db.tasks ==> (IsMemberOnly(s.db.tasks[c.id]) ==> s.db.tasks[c.id].state == Next(s, e).db.tasks[c.id].state)
    ensures Owned(s.db, s.now, c)
  {
    if Writes(e) { NotGainedByWrite(s, e, c); } else { NotGainedOtherwise(s, e, c); }
  }

  lemma NotGainedByWrite(s: State, e: Event, c: Claim)
    requires Enabled(s, e) && Writes(e) && !e.Seed? && OwnersFresh(s)
    requires Owned(Next(s, e).db, Next(s, e).now, c)
    requires c.id in s.db.tasks ==> (IsMemberOnly(s.db.tasks[c.id]) ==> s.db.tasks[c.id].state == Next(s, e).db.tasks[c.id].state)
    ensures Owned(s.db, s.now, c)
  {
    if e.Finish? { NotGainedByFinish(s, e, c); }
  }

  lemma NotGainedByFinish(s: State, e: Event, c: Claim)
    requires Enabled(s, e) && e.Finish?
    requires Owned(Next(s, e).db, Next(s, e).now, c)
    requires c.id in s.db.tasks ==> (IsMemberOnly(s.db.tasks[c.id]) ==> s.db.tasks[c.id].state == Next(s, e).db.tasks[c.id].state)
    ensures Owned(s.db, s.now, c)
  {
  }

  lemma NotGainedOtherwise(s: State, e: Event, c: Claim)
    requires Enabled(s, e) && !Writes(e) && !Reshapes(e) && c.owner < s.nextOwner
    requires Owned(Next(s, e).db, Next(s, e).now, c)
    ensures Owned(s.db, s.now, c)
  {
  }

  predicate IsMemberOnly(row: TaskRow) {
    row.group.Some? && row.rank > 0
  }

  /** An owner sees its group row change only through its own writes. */
  lemma OthersKeepOut(s: State, e: Event, p: nat)
    requires Inv(s) && Enabled(s, e) && Acting(s, p) && Acting(Next(s, e), p) && By(e) != Some(p)
    requires Next(s, e).actors[p].key == s.actors[p].key
    ensures GroupOf(Next(s, e), p) == GroupOf(s, p)
  {
    var k := s.actors[p].key;
    if !Writes(e) {
      RowsKept(s, e);
    } else if !e.Seed? {
      WriteIsLocal(s, e, k);
      if Next(s, e).db.groups[k] != s.db.groups[k] { OneOwner(s, By(e).value, p); }
    }
  }

  lemma OneOwnerUnless(s: State, o: nat, p: nat)
    requires Inv(s) && At(s, o) && Acting(s, p) && o != p
    ensures OwnsLeader(s.db, s.now, s.actors[o].claim, s.actors[o].key) ==> s.actors[o].key != s.actors[p].key
  {
    if OwnsLeader(s.db, s.now, s.actors[o].claim, s.actors[o].key) && s.actors[o].key == s.actors[p].key {
      OneOwner(s, o, p);
    }
  }

  /** The service never forgets an instance and never replaces one. */
  lemma ServiceGrows(s: State, e: Event)
    requires Enabled(s, e)
    ensures forall u :: u in s.service ==> u in Next(s, e).service && Next(s, e).service[u] == s.service[u]
  {
  }

  /** Events that may write a group row. */
  predicate Writes(e: Event) {
    e.Announce? || e.Confirm? || e.ConfirmSearch? || e.Finish? || e.Seed?
  }

  lemma RowsKept(s: State, e: Event)
    requires Enabled(s, e) && !Writes(e)
    ensures forall k :: k in Next(s, e).db.groups ==> k in s.db.groups && Next(s, e).db.groups[k] == s.db.groups[k]
  {
  }

  /** A write reaches one row only, and only through an acting owner. */
  lemma WriteIsLocal(s: State, e: Event, k: GroupKey)
    requires Inv(s) && Enabled(s, e) && Writes(e) && !e.Seed? && k in Next(s, e).db.groups
    ensures k in s.db.groups
    ensures Next(s, e).db.groups[k] == s.db.groups[k] || (Acting(s, By(e).value) && s.actors[By(e).value].key == k)
  {
    match e
    case Announce(o) =>
    case Confirm(o) => ConfirmIsLocal(s, o, k);
    case ConfirmSearch(o) => ConfirmSearchIsLocal(s, o, k);
    case Finish(_, _, _, _, _) => FinishIsLocal(s, e, k);
  }

  lemma ConfirmIsLocal(s: State, o: nat, k: GroupKey)
    requires Enabled(s, Confirm(o)) && k in Next(s, Confirm(o)).db.groups
    ensures k in s.db.groups
    ensures Next(s, Confirm(o)).db.groups[k] == s.db.groups[k] || (Acting(s, o) && s.actors[o].key == k)
  {
  }

  lemma ConfirmSearchIsLocal(s: State, o: nat, k: GroupKey)
    requires Enabled(s, ConfirmSearch(o)) && k in Next(s, ConfirmSearch(o)).db.groups
    ensures k in s.db.groups
    ensures Next(s, ConfirmSearch(o)).db.groups[k] == s.db.groups[k] || (Acting(s, o) && s.actors[o].key == k)
  {
  }

  lemma FinishIsLocal(s: State, e: Event, k: GroupKey)
    requires Inv(s) && Enabled(s, e) && e.Finish? && k in Next(s, e).db.groups
    ensures k in s.db.groups
    ensures Next(s, e).db.groups[k] == s.db.groups[k] || (Acting(s, e.o) && s.actors[e.o].key == k)
  {
  }

  lemma WriterKeepsCode(s: State, e: Event)
    requires Inv(s) && Enabled(s, e) && Writes(e) && !e.Seed? && Acting(s, By(e).value)
    ensures WrittenRowAgrees(s, Next(s, e), s.actors[By(e).value].key)
  {
    var o := By(e).value;
    assert MemoryHolds(s, o) && CodeAgrees(s, GroupOf(s, o));
  }

  predicate WrittenRowAgrees(s: State, t: State, key: GroupKey) {
    key in t.db.groups && CodeAgrees(t, t.db.groups[key])
  }

  lemma CodeStep(s: State, e: Event)
    requires Inv(s) && Enabled(s, e)
    ensures CodesAgree(Next(s, e))
  {
    var t := Next(s, e);
    ServiceGrows(s, e);
    forall k | k in t.db.groups ensures CodeAgrees(t, t.db.groups[k]) {
      if !Writes(e) {
        RowsKept(s, e);
        assert CodeAgrees(s, s.db.groups[k]);
      } else if !e.Seed? {
        WriteIsLocal(s, e, k);
        if t.db.groups[k] != s.db.groups[k] {
          WriterKeepsCode(s, e);
        } else {
          assert CodeAgrees(s, s.db.groups[k]);
        }
      } else if k in s.db.groups {
        assert CodeAgrees(s, s.db.groups[k]);
      }
    }
  }

  lemma OwnMemory(s: State, e: Event, o: nat)
    requires Inv(s) && Enabled(s, e) && By(e) == Some(o) && Acting(s, o) && Acting(Next(s, e), o)
    ensures MemoryHolds(Next(s, e), o)
  {
    assert MemoryHolds(s, o) && CodeAgrees(s, GroupOf(s, o));
  }

  /** No instance appears under a live group's key except through its owner. */
  lemma ServiceUnderOwner(s: State, e: Event, p: nat)
    requires Inv(s) && Enabled(s, e) && Acting(s, p) && By(e) != Some(p)
    ensures GroupOf(s, p).uuid in Next(s, e).service ==> GroupOf(s, p).uuid in s.service
  {
    if e.Execute? {
      OneOwnerUnless(s, e.o, p);
    }
  }

  lemma OthersMemory(s: State, e: Event, p: nat)
    requires Inv(s) && Enabled(s, e) && By(e) != Some(p) && Acting(Next(s, e), p)
    requires !(e.Take? && p == s.nextOwner)
    ensures MemoryHolds(Next(s, e), p)
  {
    NoGain(s, e, p);
    OthersKeepOut(s, e, p);
    ServiceUnderOwner(s, e, p);
    ServiceGrows(s, e);
    assert MemoryHolds(s, p);
  }

  lemma MemoryStep(s: State, e: Event)
    requires Inv(s) && Enabled(s, e)
    ensures MemoriesHold(Next(s, e))
  {
    forall p | Acting(Next(s, e), p) ensures MemoryHolds(Next(s, e), p) {
      if e.Take? && p == s.nextOwner {
      } else {
        NoGain(s, e, p);
        if By(e) == Some(p) { OwnMemory(s, e, p); } else { OthersMemory(s, e, p); }
      }
    }
  }

  /** Every step of every run keeps the invariant, with no condition on the worker. */
  lemma InvStep(s: State, e: Event)
    requires Inv(s) && Enabled(s, e)
    ensures Inv(Next(s, e))
  {
    OwnersStep(s, e);
    LeaderStep(s, e);
    UuidStep(s, e);
    CodeStep(s, e);
    MemoryStep(s, e);
  }

  // ----- what needs a condition on the worker -----------------------------

  /** The row of an untried group really has no instance behind it. */
  predicate ReadyMeansAbsent(s: State) {
    forall k :: k in s.db.groups && s.db.groups[k].phase == Ready && s.db.groups[k].instance.None?
      ==> s.db.groups[k].uuid !in s.service
  }

  /** Every instance at the service is under the key of a group row still there, or of
      one that was removed without looking at its phase. */
  predicate NoOrphan(s: State) {
    forall u :: u in s.service ==> u in LiveUuids(s) || u in s.retired
  }

  predicate FreshTry(pc: Pc) {
    (pc.Sent? || pc.Refused?) && pc.prior == Ready
  }

  ghost predicate FirstTriesAbsent(s: State) {
    forall o :: Acting(s, o) && FreshTry(s.actors[o].pc) ==> GroupOf(s, o).uuid !in s.service
  }

  ghost predicate Safe(s: State) {
    ReadyMeansAbsent(s) && NoOrphan(s) && FirstTriesAbsent(s)
  }

  /** The caller-side condition: the phase goes back to `ready` only after a refused create,
      and only if it was `ready` before the request, not left over from an unanswered one. */
  predicate Guarded(s: State, e: Event) {
    && (e.Confirm? && e.o in s.actors && s.actors[e.o].pc.Refused? ==> s.actors[e.o].pc.prior == Ready)
    && (e.ConfirmSearch? && e.o in s.actors ==> !s.actors[e.o].pc.Missing?)
  }

  lemma AbsentStep(s: State, e: Event)
    requires Inv(s) && Safe(s) && Enabled(s, e) && Guarded(s, e)
    ensures ReadyMeansAbsent(Next(s, e))
  {
    var t := Next(s, e);
    forall k | k in t.db.groups && t.db.groups[k].phase == Ready && t.db.groups[k].instance.None?
      ensures t.db.groups[k].uuid !in t.service
    {
      if e.Seed? && k == e.key {
      } else if !Writes(e) || e.Seed? {
        assert k in s.db.groups && t.db.groups[k] == s.db.groups[k];
        if e.Execute? { assert MemoryHolds(s, e.o); }
      } else {
        WriteIsLocal(s, e, k);
        if t.db.groups[k] != s.db.groups[k] { assert MemoryHolds(s, By(e).value); }
      }
    }
  }

  lemma OrphanStep(s: State, e: Event)
    requires Inv(s) && Safe(s) && Enabled(s, e)
    ensures NoOrphan(Next(s, e))
  {
    var t := Next(s, e);
    forall u | u in t.service ensures u in LiveUuids(t) || u in t.retired {
      if u in s.service && u !in s.retired {
        var k :| k in s.db.groups && s.db.groups[k].uuid == u;
        RowSurvives(s, e, k);
      } else if u !in s.service {
        assert e.Execute? && s.db.groups[s.actors[e.o].key].uuid == u;
        RowSurvives(s, e, s.actors[e.o].key);
      }
    }
  }

  /** A group row leaves the table only by dissolving an untried group, or as its key is retired. */
  lemma RowSurvives(s: State, e: Event, k: GroupKey)
    requires Inv(s) && Enabled(s, e) && k in s.db.groups
    ensures s.retired <= Next(s, e).retired
    ensures s.db.groups[k].uuid in LiveUuids(Next(s, e)) || s.db.groups[k].uuid in Next(s, e).retired
         || (e == Dissolve(k) && Untried(s.db, s.now, k))
  {
    var t := Next(s, e);
    if k in t.db.groups { assert t.db.groups[k].uuid == s.db.groups[k].uuid; }
  }

  lemma FirstTryStep(s: State, e: Event)
    requires Inv(s) && Safe(s) && Enabled(s, e)
    ensures FirstTriesAbsent(Next(s, e))
  {
    var t := Next(s, e);
    forall o | Acting(t, o) && FreshTry(t.actors[o].pc) ensures GroupOf(t, o).uuid !in t.service {
      assert !(e.Take? && o == s.nextOwner);
      NoGain(s, e, o);
      assert MemoryHolds(s, o);
      if By(e) != Some(o) {
        OthersKeepOut(s, e, o);
        ServiceUnderOwner(s, e, o);
      }
    }
  }

  lemma SafeStep(s: State, e: Event)
    requires Inv(s) && Safe(s) && Enabled(s, e) && Guarded(s, e)
    ensures Safe(Next(s, e))
  {
    AbsentStep(s, e);
    OrphanStep(s, e);
    FirstTryStep(s, e);
  }

  // ----- runs -------------------------------------------------------------

  const Start := State(Db(map[], map[], map[]), 0, map[], map[], 0, {})

  ghost predicate Run(s: State, es: seq<Event>, t: State)
    decreases es
  {
    if es == [] then s == t
    else Enabled(s, es[0]) && Run(Next(s, es[0]), es[1..], t)
  }

  ghost predicate GuardedRun(s: State, es: seq<Event>, t: State)
    decreases es
  {
    if es == [] then s == t
    else Enabled(s, es[0]) && Guarded(s, es[0]) && GuardedRun(Next(s, es[0]), es[1..], t)
  }

  lemma {:induction false} RunKeepsInv(s: State, es: seq<Event>, t: State)
    requires Inv(s) && Run(s, es, t)
    ensures Inv(t)
    decreases es
  {
    if es == [] {
    } else {
      InvStep(s, es[0]);
      RunKeepsInv(Next(s, es[0]), es[1..], t);
    }
  }

  lemma {:induction false} GuardedRunKeepsSafe(s: State, es: seq<Event>, t: State)
    requires Inv(s) && Safe(s) && GuardedRun(s, es, t)
    ensures Inv(t) && Safe(t)
    decreases es
  {
    if es == [] {
    } else {
      InvStep(s, es[0]);
      SafeStep(s, es[0]);
      GuardedRunKeepsSafe(Next(s, es[0]), es[1..], t);
    }
  }

  /** In every run, crashes and lost answers included: a group that has a code, or that
      waits for a lookup, is never announced to the service again. */
  lemma NeverSentAgain(es: seq<Event>, s: State, o: nat)
    requires Run(Start, es, s) && Enabled(s, Announce(o))
    ensures GroupOf(s, o).instance.None? && GroupOf(s, o).phase in {Ready, Creating}
  {
    RunKeepsInv(Start, es, s);
    assert Acting(s, o) && MemoryHolds(s, o) && CodeAgrees(s, GroupOf(s, o));
    assert GroupOf(s, o).phase != Backfilling by { GroupPhases(Start, es, s); }
  }

  predicate NoBackfillPhase(s: State) {
    forall k :: k in s.db.groups ==> s.db.groups[k].phase != Backfilling
  }

  lemma {:induction false} GroupPhases(s: State, es: seq<Event>, t: State)
    requires NoBackfillPhase(s) && Run(s, es, t)
    ensures NoBackfillPhase(t)
    decreases es
  {
    if es == [] {
    } else {
      PhaseStep(s, es[0]);
      GroupPhases(Next(s, es[0]), es[1..], t);
    }
  }

  lemma PhaseStep(s: State, e: Event)
    requires NoBackfillPhase(s) && Enabled(s, e)
    ensures NoBackfillPhase(Next(s, e))
  {
    if !Writes(e) { RowsKept(s, e); }
  }

  /** The key `u` is either retired or belongs to a row that records `code`. */
  predicate Pinned(s: State, u: Uuid, code: Code) {
    u in s.retired || exists k :: k in s.db.groups && s.db.groups[k].uuid == u && s.db.groups[k].instance == Some(code)
  }

  lemma CodeKept(s: State, e: Event, k: GroupKey)
    requires Inv(s) && Enabled(s, e) && k in s.db.groups && s.db.groups[k].instance.Some? && k in Next(s, e).db.groups
    ensures Next(s, e).db.groups[k].uuid == s.db.groups[k].uuid
    ensures Next(s, e).db.groups[k].instance == s.db.groups[k].instance
  {
    if !Writes(e) {
      RowsKept(s, e);
    } else if !e.Seed? {
      WriteIsLocal(s, e, k);
      if Next(s, e).db.groups[k] != s.db.groups[k] {
        assert CodeAgrees(s, s.db.groups[k]) && MemoryHolds(s, By(e).value);
      }
    }
  }

  lemma PinnedStep(s: State, e: Event, u: Uuid, code: Code)
    requires Inv(s) && Enabled(s, e) && Pinned(s, u, code)
    ensures Pinned(Next(s, e), u, code)
  {
    var t := Next(s, e);
    if u !in s.retired {
      var k :| k in s.db.groups && s.db.groups[k].uuid == u && s.db.groups[k].instance == Some(code);
      assert CodeAgrees(s, s.db.groups[k]);
      if k in t.db.groups {
        CodeKept(s, e, k);
        assert t.db.groups[k].uuid == u && t.db.groups[k].instance == Some(code);
      } else {
        GoneOrRetired(s, e, k);
      }
    }
  }

  lemma GoneOrRetired(s: State, e: Event, k: GroupKey)
    requires Enabled(s, e) && k in s.db.groups && k !in Next(s, e).db.groups
    ensures s.db.groups[k].uuid in Next(s, e).retired || (e == Dissolve(k) && Untried(s.db, s.now, k))
  {
  }

  lemma {:induction false} PinnedRun(s: State, es: seq<Event>, t: State, u: Uuid, code: Code)
    requires Inv(s) && Run(s, es, t) && Pinned(s, u, code)
    ensures Pinned(t, u, code) && Inv(t)
    decreases es
  {
    if es == [] {
    } else {
      InvStep(s, es[0]);
      PinnedStep(s, es[0], u, code);
      PinnedRun(Next(s, es[0]), es[1..], t, u, code);
    }
  }

  /** A recorded code is the service's instance for that key, and whatever happens later
      no row ever shows another code, or none, under the same key. */
  lemma CodeIsFinal(es: seq<Event>, s: State, fs: seq<Event>, t: State, k: GroupKey, l: GroupKey)
    requires Run(Start, es, s) && Run(s, fs, t)
    requires k in s.db.groups && s.db.groups[k].instance.Some?
    requires l in t.db.groups && t.db.groups[l].uuid == s.db.groups[k].uuid
    ensures t.db.groups[l].instance == s.db.groups[k].instance
    ensures t.db.groups[l].uuid in t.service && Some(t.service[t.db.groups[l].uuid]) == s.db.groups[k].instance
  {
    RunKeepsInv(Start, es, s);
    PinnedRun(s, fs, t, s.db.groups[k].uuid, s.db.groups[k].instance.value);
    assert CodeAgrees(t, t.db.groups[l]);
  }

  /** If every refusal obeys the guard, then in every reachable state an untried group
      has no instance, and dissolving a group leaves none behind. */
  lemma DissolvingIsSafe(es: seq<Event>, s: State, key: GroupKey)
    requires GuardedRun(Start, es, s) && Enabled(s, Dissolve(key))
    ensures s.db.groups[key].uuid !in s.service
    ensures ReadyMeansAbsent(s) && NoOrphan(s) && NoOrphan(Next(s, Dissolve(key)))
  {
    GuardedRunKeepsSafe(Start, es, s);
    SafeStep(s, Dissolve(key));
  }

  // ----- exactly when the reset after a refusal is right -------------------

  /** What may make a worker put the phase back to `ready`. */
  datatype Cause = AfterRefusal(prior: Phase) | AfterMiss

  function ResetBy(cause: Cause, o: nat): Event {
    if cause.AfterRefusal? then Confirm(o) else ConfirmSearch(o)
  }

  /** Actor `o` is about to act on a refused create announced over the phase `prior`, or on
      a lookup that found nothing. */
  predicate AboutToReset(s: State, o: nat, cause: Cause) {
    Acting(s, o) && s.actors[o].pc == if cause.AfterRefusal? then Refused(cause.prior) else Missing
  }

  /** Reachable in a run in which every refusal so far obeyed the guard. */
  ghost predicate Reachable(s: State) {
    exists es :: GuardedRun(Start, es, s)
  }

  ghost predicate ResetIsSafe(cause: Cause) {
    forall s, o :: Reachable(s) && AboutToReset(s, o, cause) ==> ReadyMeansAbsent(Next(s, ResetBy(cause, o)))
  }

  const KEY := GroupKey(1, "g")
  const ROW := GroupRow(9, "h", Ready, None, None)
  const LEADER := NewTask(1, "r", Some(KEY), 0)

  lemma {:induction false} RunExtended(s: State, es: seq<Event>, t: State, e: Event)
    requires GuardedRun(s, es, t) && Enabled(t, e) && Guarded(t, e)
    ensures GuardedRun(s, es + [e], Next(t, e))
    decreases es
  {
    if es == [] {
      assert (es + [e])[1..] == [];
    } else {
      RunExtended(Next(s, es[0]), es[1..], t, e);
      assert (es + [e])[1..] == es[1..] + [e];
    }
  }

  lemma Then(s: State, e: Event, t: State)
    requires Reachable(s) && Enabled(s, e) && Guarded(s, e) && Next(s, e) == t
    ensures Reachable(t)
  {
    var es :| GuardedRun(Start, es, s);
    RunExtended(Start, es, s, e);
  }

  /** One leader row, one group row, up to two actors. */
  function Scene(task: TaskRow, phase: Phase, now: int, service: map<Uuid, Code>, actors: map<nat, Actor>, owners: nat): State {
    State(Db(map[1 := task], map[KEY := ROW.(phase := phase)], map[]), now, service, actors, owners, {})
  }

  function Worker(o: nat, generation: nat, pc: Pc): Actor {
    Actor(Claim(1, o, generation, 0), KEY, pc)
  }

  function HeldBy(o: nat, generation: nat, until: int, phase: Phase): TaskRow {
    LEADER.(holder := Some(Lease(o, until)), generation := generation, phase := phase)
  }

  const Made := map[9 := 7]
  const Stuck0 := HeldBy(0, 1, 300, Creating).(state := Review, lastError := Some(UNKNOWN_RESULT))

  function Again(task: TaskRow, phase: Phase, pc: Pc): State {
    Scene(task.(lastError := Some(UNKNOWN_RESULT)), phase, 300, Made, map[0 := Worker(0, 1, Idle), 1 := Worker(1, 2, pc)], 2)
  }

  const Taken := Scene(HeldBy(0, 1, 300, Ready), Ready, 0, map[], map[0 := Worker(0, 1, Held)], 1)
  const Known := Scene(HeldBy(0, 1, 300, Ready), Ready, 0, map[], map[0 := Worker(0, 1, Loaded(Ready, None))], 1)
  const Announced := Scene(HeldBy(0, 1, 300, Creating), Creating, 0, map[], map[0 := Worker(0, 1, Sent(Ready))], 1)
  const Landed := Scene(HeldBy(0, 1, 300, Creating), Creating, 0, Made, map[0 := Worker(0, 1, Accepted(Ready, 7))], 1)
  const Lost := Scene(HeldBy(0, 1, 300, Creating), Creating, 0, Made, map[0 := Worker(0, 1, Unheard)], 1)
  const Reviewed := Scene(Stuck0, Creating, 0, Made, map[0 := Worker(0, 1, Idle)], 1)
  const Reclicked := Scene(LEADER.(generation := 1, lastError := Some(UNKNOWN_RESULT)), Creating, 300, Made, map[0 := Worker(0, 1, Idle)], 1)
  const Retaken := Again(HeldBy(1, 2, 600, Ready), Creating, Held)
  const Reread := Again(HeldBy(1, 2, 600, Ready), Creating, Loaded(Creating, None))
  const Resent := Again(HeldBy(1, 2, 600, Creating), Creating, Sent(Creating))
  const TurnedAway := Again(HeldBy(1, 2, 600, Creating), Creating, Refused(Creating))

  lemma SeededAndTaken()
    ensures Reachable(Taken)
  {
    assert GuardedRun(Start, [], Start);
    Then(Start, Seed(KEY, ROW, map[1 := LEADER]), Scene(LEADER, Ready, 0, map[], map[], 0));
    Then(Scene(LEADER, Ready, 0, map[], map[], 0), Take(1, KEY), Taken);
  }

  lemma GroupIsRead()
    ensures Reachable(Taken) ==> Reachable(Known)
  {
    if Reachable(Taken) { Then(Taken, Load(0), Known); }
  }

  lemma CreateAnnounced()
    ensures Reachable(Known) ==> Reachable(Announced)
  {
    if Reachable(Known) { Then(Known, Announce(0), Announced); }
  }

  lemma CreateLands()
    ensures Reachable(Announced) ==> Reachable(Landed)
  {
    if Reachable(Announced) { Then(Announced, Execute(0, 7), Landed); }
  }

  lemma AnswerIsLost()
    ensures Reachable(Landed) ==> Reachable(Lost)
  {
    if Reachable(Landed) { Then(Landed, Lose(0), Lost); }
  }

  lemma LossIsNoted()
    ensures Reachable(Lost) ==> Reachable(Reviewed)
  {
    if Reachable(Lost) { Then(Lost, MarkUnknown(0), Reviewed); }
  }

  lemma ClickReopens()
    ensures Reachable(Reviewed) ==> Reachable(Reclicked)
  {
    if Reachable(Reviewed) {
      Then(Reviewed, Tick(300), Reviewed.(now := 300));
      Then(Reviewed.(now := 300), ReopenLeader(1, KEY, true), Reclicked);
    }
  }

  lemma SecondTake()
    ensures Enabled(Reclicked, Take(1, KEY)) && Next(Reclicked, Take(1, KEY)) == Retaken
  {
  }

  lemma SecondLoad()
    ensures Enabled(Retaken, Load(1)) && Next(Retaken, Load(1)) == Reread
  {
  }

  lemma SecondRound()
    ensures Reachable(Reclicked) ==> Reachable(Reread)
  {
    if Reachable(Reclicked) {
      SecondTake();
      Then(Reclicked, Take(1, KEY), Retaken);
      SecondLoad();
      Then(Retaken, Load(1), Reread);
    }
  }

  lemma RepeatIsAllowed()
    ensures Enabled(Reread, Announce(1))
  {
  }

  lemma RepeatLeads()
    requires Enabled(Reread, Announce(1))
    ensures Next(Reread, Announce(1)) == Resent
  {
  }

  lemma RepeatIsSent()
    ensures Reachable(Reread) ==> Reachable(Resent)
  {
    if Reachable(Reread) {
      RepeatIsAllowed();
      RepeatLeads();
      Then(Reread, Announce(1), Resent);
    }
  }

  lemma RepeatIsRefused()
    ensures Reachable(Resent) ==> Reachable(TurnedAway)
  {
    if Reachable(Resent) { Then(Resent, Refuse(1), TurnedAway); }
  }

  const Reset := Again(HeldBy(1, 2, 600, Ready), Ready, Loaded(Ready, None))
  const Denied := Again(HeldBy(1, 2, 600, Creating), Creating, Conflicted)
  const LookingUp := Again(HeldBy(1, 2, 600, Lookup), Lookup, Searching)
  const NotSeen := Again(HeldBy(1, 2, 600, Lookup), Lookup, Missing)
  const Closed := Scene(
    LEADER.(generation := 2, state := Paused, availableAt := Some(330)), Ready, 300, Made, map[0 := Worker(0, 1, Idle)], 2)

  lemma RepeatConflicts()
    ensures Reachable(Resent) ==> Reachable(Denied)
  {
    if Reachable(Resent) { Then(Resent, Execute(1, 8), Denied); }
  }

  lemma LookupIsNoted()
    ensures Reachable(Denied) ==> Reachable(LookingUp)
  {
    if Reachable(Denied) { Then(Denied, Confirm(1), LookingUp); }
  }

  lemma LookupMisses()
    ensures Reachable(LookingUp) ==> Reachable(NotSeen)
  {
    if Reachable(LookingUp) { Then(LookingUp, Search(1, false), NotSeen); }
  }

  lemma PhaseIsReset()
    ensures Enabled(TurnedAway, Confirm(1)) && Next(TurnedAway, Confirm(1)) == Reset
    ensures AboutToReset(TurnedAway, 1, AfterRefusal(Creating))
    ensures !ReadyMeansAbsent(Reset)
  {
    assert KEY in Reset.db.groups && Reset.db.groups[KEY].uuid in Reset.service;
  }

  lemma GroupIsClosed()
    ensures Enabled(Reset, Finish(1, Paused, None, None, false)) && Next(Reset, Finish(1, Paused, None, None, false)) == Closed
  {
  }

  lemma GroupIsDissolved()
    ensures Enabled(Closed, Dissolve(KEY)) && !NoOrphan(Next(Closed, Dissolve(KEY)))
  {
    assert 1 in Closed.db.tasks && InGroup(Closed.db.tasks[1], KEY);
    assert LiveUuids(Next(Closed, Dissolve(KEY))) == {};
    assert 9 in Closed.service;
  }

  lemma ResentIsReached()
    ensures Reachable(Resent)
  {
    SeededAndTaken();
    GroupIsRead();
    CreateAnnounced();
    CreateLands();
    AnswerIsLost();
    LossIsNoted();
    ClickReopens();
    SecondRound();
    RepeatIsSent();
  }

  /** The code does not keep the property: a create lands, its answer is lost, the
      task is reopened by a click, the repeated create is turned away before it reaches
      the service, and the row goes back to `ready` with an instance behind it. The
      next full click may then dissolve the group and orphan that instance. */
  lemma ResetCanOrphan()
    ensures Reachable(TurnedAway) && AboutToReset(TurnedAway, 1, AfterRefusal(Creating))
    ensures Next(TurnedAway, Confirm(1)) == Reset && !ReadyMeansAbsent(Reset)
    ensures Enabled(Reset, Finish(1, Paused, None, None, false)) && Next(Reset, Finish(1, Paused, None, None, false)) == Closed
    ensures Enabled(Closed, Dissolve(KEY)) && !NoOrphan(Next(Closed, Dissolve(KEY)))
  {
    ResentIsReached();
    RepeatIsRefused();
    PhaseIsReset();
    GroupIsClosed();
    GroupIsDissolved();
  }

  /** A lookup is made only where the service has reported an instance, so one that finds
      nothing has missed it, and the reset leaves a `ready` row with an instance behind it. */
  lemma MissIsNeverAbsence(es: seq<Event>, s: State, o: nat)
    requires Run(Start, es, s) && AboutToReset(s, o, AfterMiss)
    ensures GroupOf(s, o).uuid in s.service
    ensures !ReadyMeansAbsent(Next(s, ConfirmSearch(o)))
  {
    RunKeepsInv(Start, es, s);
    assert MemoryHolds(s, o) && CodeAgrees(s, GroupOf(s, o));
    var t, k := Next(s, ConfirmSearch(o)), s.actors[o].key;
    assert k in t.db.groups && t.db.groups[k].phase == Ready && t.db.groups[k].instance.None?;
    assert t.db.groups[k].uuid in t.service;
  }

  lemma MissIsReached()
    ensures Reachable(NotSeen) && AboutToReset(NotSeen, 1, AfterMiss)
  {
    ResentIsReached();
    RepeatConflicts();
    LookupIsNoted();
    LookupMisses();
  }

  lemma {:induction false} GuardedIsRun(s: State, es: seq<Event>, t: State)
    requires GuardedRun(s, es, t)
    ensures Run(s, es, t)
    decreases es
  {
    if es == [] {
    } else {
      GuardedIsRun(Next(s, es[0]), es[1..], t);
    }
  }

  /** Putting the phase back to `ready` is right over every reachable state exactly after a
      refusal, and then exactly when the phase read before the request was not `creating`. */
  lemma ResetSafeExactly(cause: Cause)
    ensures ResetIsSafe(cause) <==> cause.AfterRefusal? && cause.prior != Creating
  {
    if cause == AfterRefusal(Creating) {
      ResetCanOrphan();
    } else if cause == AfterMiss {
      MissIsReached();
      var es :| GuardedRun(Start, es, NotSeen);
      GuardedIsRun(Start, es, NotSeen);
      MissIsNeverAbsence(es, NotSeen, 1);
    } else {
      forall s, o | Reachable(s) && AboutToReset(s, o, cause)
        ensures ReadyMeansAbsent(Next(s, Confirm(o)))
      {
        var es :| GuardedRun(Start, es, s);
        GuardedRunKeepsSafe(Start, es, s);
        OnlyTwoPriors(es, s, o, cause.prior);
        SafeStep(s, Confirm(o));
      }
    }
  }

  predicate PriorOk(s: State) {
    forall o :: o in s.actors && (s.actors[o].pc.Sent? || s.actors[o].pc.Refused?) ==> s.actors[o].pc.prior in {Ready, Creating}
  }

  lemma PriorStep(s: State, e: Event)
    requires Inv(s) && NoBackfillPhase(s) && PriorOk(s) && Enabled(s, e)
    ensures PriorOk(Next(s, e))
  {
    if e.Announce? {
      assert Acting(s, e.o) && MemoryHolds(s, e.o) && CodeAgrees(s, GroupOf(s, e.o));
    }
  }

  lemma {:induction false} PriorRun(s: State, es: seq<Event>, t: State)
    requires Inv(s) && NoBackfillPhase(s) && PriorOk(s) && GuardedRun(s, es, t)
    ensures PriorOk(t)
    decreases es
  {
    if es == [] {
    } else {
      InvStep(s, es[0]);
      PhaseStep(s, es[0]);
      PriorStep(s, es[0]);
      PriorRun(Next(s, es[0]), es[1..], t);
    }
  }

  lemma OnlyTwoPriors(es: seq<Event>, s: State, o: nat, prior: Phase)
    requires GuardedRun(Start, es, s) && AboutToReset(s, o, AfterRefusal(prior))
    ensures prior in {Ready, Creating}
  {
    PriorRun(Start, es, s);
  }

  // ----- when an applicant may change again -------------------------------------

  /** A search that found nothing, or an answer that the create was refused. */
  predicate Thaws(s: State, e: Event, key: GroupKey) {
    match e
    case ConfirmSearch(o) => Acting(s, o) && s.actors[o].key == key && s.actors[o].pc.Missing?
    case Confirm(o) => Acting(s, o) && s.actors[o].key == key && s.actors[o].pc.Refused?
    case _ => false
  }

  /** A frozen group that stays in the table thaws by these two steps and no other, and
      then only if it has no instance code. */
  lemma FrozenUntil(s: State, e: Event, key: GroupKey)
    requires Inv(s) && Enabled(s, e)
    requires key in s.db.groups && Frozen(s.db.groups[key]) && key in Next(s, e).db.groups
    ensures !Frozen(Next(s, e).db.groups[key]) <==> Thaws(s, e, key) && s.db.groups[key].instance.None?
  {
    var t := Next(s, e);
    if !Writes(e) {
      RowsKept(s, e);
    } else if !e.Seed? {
      WriteIsLocal(s, e, key);
      if Acting(s, By(e).value) && s.actors[By(e).value].key == key {
        FrozenUnderOwner(s, e, key);
      } else {
        assert t.db.groups[key] == s.db.groups[key];
      }
    }
  }

  lemma FrozenUnderOwner(s: State, e: Event, key: GroupKey)
    requires Inv(s) && Enabled(s, e) && Writes(e) && !e.Seed? && Acting(s, By(e).value) && s.actors[By(e).value].key == key
    requires key in s.db.groups && Frozen(s.db.groups[key]) && key in Next(s, e).db.groups
    ensures !Frozen(Next(s, e).db.groups[key]) <==> Thaws(s, e, key) && s.db.groups[key].instance.None?
  {
    var o := By(e).value;
    assert MemoryHolds(s, o) && CodeAgrees(s, GroupOf(s, o));
    match e
    case Announce(_) =>
    case Confirm(_) => FrozenByConfirm(s, o);
    case ConfirmSearch(_) => FrozenBySearch(s, o);
    case Finish(_, _, _, _, _) => FrozenByFinish(s, e, o);
  }

  lemma FrozenByConfirm(s: State, o: nat)
    requires Acting(s, o) && Enabled(s, Confirm(o)) && MemoryHolds(s, o) && CodeAgrees(s, GroupOf(s, o))
    ensures var t, key := Next(s, Confirm(o)), s.actors[o].key;
      key in t.db.groups && (!Frozen(t.db.groups[key]) <==> s.actors[o].pc.Refused? && s.db.groups[key].instance.None?)
  {
  }

  lemma FrozenBySearch(s: State, o: nat)
    requires Acting(s, o) && Enabled(s, ConfirmSearch(o)) && MemoryHolds(s, o) && CodeAgrees(s, GroupOf(s, o))
    ensures var t, key := Next(s, ConfirmSearch(o)), s.actors[o].key;
      key in t.db.groups && (!Frozen(t.db.groups[key]) <==> s.actors[o].pc.Missing? && s.db.groups[key].instance.None?)
  {
  }

  lemma FrozenByFinish(s: State, e: Event, o: nat)
    requires Acting(s, o) && Enabled(s, e) && e.Finish? && e.o == o && MemoryHolds(s, o) && CodeAgrees(s, GroupOf(s, o))
    requires Frozen(GroupOf(s, o))
    ensures var t, key := Next(s, e), s.actors[o].key;
      key in t.db.groups && Frozen(t.db.groups[key])
  {
  }
}
