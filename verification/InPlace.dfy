/** Hoisting on shared objects: components are the very objects of the table, so rewriting
    the document in place rewrites them too. */
module InPlace {
  import opened Hoist
  import opened Sharing
  import opened Objects
  import opened Walks
  import opened Tabling

  method KeysOf(fields: map<string, Slot>) returns (ks: seq<string>)
    ensures KeysOnce(fields, ks)
  {
    ks := [];
    var rest := fields.Keys;
    while rest != {}
      invariant rest <= fields.Keys && (forall key :: key in fields <==> key in rest || key in ks)
      invariant (forall key :: key in ks ==> key !in rest) && forall i, j :: 0 <= i < j < |ks| ==> ks[i] != ks[j]
      decreases |rest|
    {
      var key :| key in rest;
      ks := ks + [key];
      rest := rest - {key};
    }
  }

  lemma RewriteMore(s: Store, t: Store, u: Store, part: set<Ref>, own: set<Ref>, names: map<string, string>)
    requires RewrittenOn(s, t, part, names) && RewrittenOn(t, u, own, names)
    ensures RewrittenOn(s, u, part + own, names)
  {
    forall q | q in s ensures u[q] == if q in part + own then RewriteCell(s[q], names) else s[q] { RewriteTwice(s[q], names); }
  }

  lemma {:induction false} ReachOfMembers(s: Store, r: Ref, slots: seq<Slot>)
    requires WellFormed(s) && r in s && Lists(s, r, slots)
    ensures (forall i :: 0 <= i < |slots| ==> SlotIn(s, slots[i])) && Reach(s, r) == {r} + SlotsReach(s, slots, |slots|)
  {
    MembersWithin(s, r, slots, |slots|);
    forall slot, q | slot in Slots(s[r]) && slot.To? && slot.ref < r && slot.ref in s && q in Reach(s, slot.ref)
      ensures q in SlotsReach(s, slots, |slots|)
    {
      var i :| 0 <= i < |slots| && slots[i] == slot;
      SlotsReachHolds(s, slots, |slots|, i);
    }
  }

  lemma NodeRewritten(s: Store, t: Store, u: Store, r: Ref, slots: seq<Slot>, names: map<string, string>)
    requires WellFormed(s) && r in s && RewrittenOn(s, t, {r}, names) && WellFormed(t) && Lists(t, r, slots)
    requires forall i :: 0 <= i < |slots| ==> SlotIn(t, slots[i])
    requires RewrittenOn(t, u, SlotsReach(t, slots, |slots|), names)
    ensures RewrittenOn(s, u, Reach(s, r), names)
  {
    ReachOfMembers(t, r, slots);
    RewrittenReach(s, t, {r}, names, r);
    RewriteMore(s, t, u, {r}, SlotsReach(t, slots, |slots|), names);
  }

  ghost predicate SlotsIn(s: Store, slots: seq<Slot>) {
    forall i :: 0 <= i < |slots| ==> SlotIn(s, slots[i])
  }

  ghost predicate SlotResolved(s: Store, slot: Slot, names: set<string>, shared: set<string>) {
    match slot
    case Plain(_) => true
    case To(r) => WellFormed(s) && r in s && Resolved(TreeOf(s, r), names, shared)
  }

  ghost predicate AllResolved(s: Store, slots: seq<Slot>, r: Ref, names: set<string>, shared: set<string>) {
    forall i :: 0 <= i < |slots| ==> SlotBelow(slots[i], r) && SlotResolved(s, slots[i], names, shared)
  }

  lemma NextResolved(s: Store, slots: seq<Slot>, i: nat, r: Ref, names: set<string>, shared: set<string>)
    requires AllResolved(s, slots, r, names, shared) && i < |slots|
    ensures Rank(slots[i]) <= r && SlotResolved(s, slots[i], names, shared)
  {
    assert SlotBelow(slots[i], r);
  }

  datatype Snapshot = Snapshot(cells: Store, components: Table)

  ghost predicate StepTo(a: Snapshot, b: Snapshot, slot: Slot, names: set<string>) {
    match a
    case Snapshot(s, c) => WellFormed(s) && SlotIn(s, slot) && WalkedOne(s, c, b.cells, b.components, slot, names)
  }

  /** The first `n` slots have been walked between the two states. */
  ghost predicate WalkedTo(a: Snapshot, b: Snapshot, slots: seq<Slot>, n: nat, names: set<string>) {
    match a
    case Snapshot(s, c) =>
      Walkable(s, c, slots) && n <= |slots| && Walked(s, c, b.cells, b.components, slots, n, SlotsReach(s, slots, n), names)
  }

  ghost predicate WalkedAt(trace: seq<Snapshot>, i: nat, slots: seq<Slot>, names: set<string>)
    requires i < |trace|
  {
    WalkedTo(trace[0], trace[i], slots, i, names)
  }

  /** The states of a walk, one slot after the other. */
  ghost predicate Traced(trace: seq<Snapshot>, slots: seq<Slot>, names: set<string>) {
    forall i: nat :: i < |trace| ==> WalkedAt(trace, i, slots, names)
  }

  lemma TraceStarts(a: Snapshot, slots: seq<Slot>, names: set<string>)
    requires Startable(a, slots)
    ensures Traced([a], slots, names)
  {
    assert WalkedTo(a, a, slots, 0, names);
  }

  lemma StepWalked(a: Snapshot, b: Snapshot, next: Snapshot, slots: seq<Slot>, n: nat, names: set<string>)
    requires WalkedTo(a, b, slots, n, names) && n < |slots| && StepTo(b, next, slots[n], names)
    ensures WalkedTo(a, next, slots, n + 1, names)
  {
    WalkedOneMore(a.cells, a.components, b.cells, b.components, next.cells, next.components, slots, n, names);
  }

  lemma SamePlace(trace: seq<Snapshot>, next: Snapshot, i: nat, slots: seq<Slot>, names: set<string>)
    requires i < |trace| && WalkedAt(trace, i, slots, names)
    ensures WalkedAt(trace + [next], i, slots, names)
  {
    assert (trace + [next])[0] == trace[0] && (trace + [next])[i] == trace[i];
  }

  lemma PlaceIs(trace: seq<Snapshot>, i: nat, a: Snapshot, b: Snapshot, slots: seq<Slot>, names: set<string>)
    requires i < |trace| && trace[0] == a && trace[i] == b && WalkedTo(a, b, slots, i, names)
    ensures WalkedAt(trace, i, slots, names)
  {
  }

  lemma StepAfter(trace: seq<Snapshot>, n: nat, next: Snapshot, slots: seq<Slot>, names: set<string>)
    requires n < |trace| && n < |slots| && WalkedAt(trace, n, slots, names) && StepTo(trace[n], next, slots[n], names)
    ensures WalkedTo(trace[0], next, slots, n + 1, names)
  {
    StepWalked(trace[0], trace[n], next, slots, n, names);
  }

  lemma TraceExtends(trace: seq<Snapshot>, next: Snapshot, slots: seq<Slot>, names: set<string>)
    requires Traced(trace, slots, names) && 0 < |trace| <= |slots| && StepTo(trace[|trace| - 1], next, slots[|trace| - 1], names)
    ensures Traced(trace + [next], slots, names)
  {
    forall i: nat | i < |trace| + 1 ensures WalkedAt(trace + [next], i, slots, names) {
      if i < |trace| {
        SamePlace(trace, next, i, slots, names);
      } else {
        assert WalkedAt(trace, |trace| - 1, slots, names);
        StepAfter(trace, |trace| - 1, next, slots, names);
        PlaceIs(trace + [next], |trace|, trace[0], next, slots, names);
      }
    }
  }

  ghost predicate Startable(a: Snapshot, slots: seq<Slot>) {
    match a
    case Snapshot(s, c) => Walkable(s, c, slots) && AllClean(Abs(s, c))
  }

  /** The walk may go on with the next slot. */
  lemma MayGoOn(trace: seq<Snapshot>, slots: seq<Slot>, n: nat, r: Ref, names: set<string>, shared: set<string>)
    requires Traced(trace, slots, names) && n + 1 == |trace| && n < |slots| && AllResolved(trace[0].cells, slots, r, names, shared)
    ensures Rank(slots[n]) <= r && Enterable(trace[n], slots[n], names, shared)
  {
    assert WalkedAt(trace, n, slots, names);
    NextResolved(trace[0].cells, slots, n, r, names, shared);
    NextIsReady(trace[0].cells, trace[0].components, trace[n].cells, trace[n].components, slots, n, names);
  }

  /** What the walk of a slot asks for. */
  ghost predicate Enterable(a: Snapshot, slot: Slot, names: set<string>, shared: set<string>) {
    match a
    case Snapshot(s, c) =>
      && WellFormed(s) && TableIn(s, c) && SlotIn(s, slot) && Treelike(s, slot) && Apart(s, c, slot) && AllClean(Abs(s, c))
      && SlotResolved(s, slot, names, shared)
  }

  ghost predicate AllBelow(slots: seq<Slot>, r: Ref) {
    forall i :: 0 <= i < |slots| ==> SlotBelow(slots[i], r)
  }

  ghost predicate RewrittenAt(trace: seq<Store>, i: nat, slots: seq<Slot>, names: map<string, string>)
    requires i < |trace|
  {
    && WellFormed(trace[0]) && SlotsIn(trace[0], slots) && i <= |slots| && WellFormed(trace[i]) && SlotsIn(trace[i], slots)
    && RewrittenOn(trace[0], trace[i], SlotsReach(trace[0], slots, i), names)
  }

  /** The stores of a rewriting, one slot after the other. */
  ghost predicate RewriteTraced(trace: seq<Store>, slots: seq<Slot>, names: map<string, string>) {
    forall i: nat :: i < |trace| ==> RewrittenAt(trace, i, slots, names)
  }

  lemma RewriteStarts(s: Store, slots: seq<Slot>, names: map<string, string>)
    requires WellFormed(s) && SlotsIn(s, slots)
    ensures RewriteTraced([s], slots, names)
  {
    assert RewrittenOn(s, s, {}, names);
  }

  lemma RewriteExtends(trace: seq<Store>, next: Store, slots: seq<Slot>, names: map<string, string>)
    requires RewriteTraced(trace, slots, names) && 0 < |trace| <= |slots| && RewriteTo(trace[|trace| - 1], next, slots[|trace| - 1], names)
    ensures RewriteTraced(trace + [next], slots, names)
  {
    var longer := trace + [next];
    forall i: nat | i < |longer| ensures RewrittenAt(longer, i, slots, names) {
      if i < |trace| {
        assert RewrittenAt(trace, i, slots, names);
      } else {
        assert RewrittenAt(trace, i - 1, slots, names);
        SlotsRewrittenMore(trace[0], trace[i - 1], next, slots, i - 1, names);
      }
    }
  }

  ghost predicate RewriteTo(s: Store, t: Store, slot: Slot, names: map<string, string>) {
    WellFormed(s) && WellFormed(t) && SlotIn(s, slot) && RewrittenOn(s, t, SlotReach(s, slot), names)
  }

  lemma SlotsRewrittenMore(s: Store, t: Store, u: Store, slots: seq<Slot>, n: nat, names: map<string, string>)
    requires WellFormed(s) && SlotsIn(s, slots) && n < |slots| && WellFormed(t) && RewrittenOn(s, t, SlotsReach(s, slots, n), names)
    requires SlotIn(t, slots[n]) && RewrittenOn(t, u, SlotReach(t, slots[n]), names)
    ensures RewrittenOn(s, u, SlotsReach(s, slots, n + 1), names) && SlotsIn(u, slots)
  {
    assert SlotIn(s, slots[n]);
    if slots[n].To? { RewrittenReach(s, t, SlotsReach(s, slots, n), names, slots[n].ref); }
    RewriteMore(s, t, u, SlotsReach(s, slots, n), SlotReach(t, slots[n]), names);
    forall i | 0 <= i < |slots| ensures SlotIn(u, slots[i]) { assert SlotIn(s, slots[i]); }
  }

  ghost predicate AllocatedSoFar(s: Store, d: Table, e: Table, table: Ref, m: map<string, string>)
    requires WellFormed(s) && table in s && s[table].ObjCell?
  {
    && TableIn(s, e) && EntriesOnly(d, e, s[table].fields)
    && forall name :: name in m ==> name in s[table].fields && m[name] in e && DocOf(s, e[m[name]]) == TreeOf(s, table).fields[name]
  }

  lemma EntryTree(s: Store, table: Ref, name: string)
    requires WellFormed(s) && table in s && s[table].ObjCell? && name in s[table].fields
    ensures SlotIn(s, s[table].fields[name]) && DocOf(s, s[table].fields[name]) == TreeOf(s, table).fields[name]
  {
    assert s[table].fields[name] in Slots(s[table]);
    assert TreeOf(s, table).fields[name] == Child(s, table, s[table].fields[name]);
  }

  lemma AllocatedMore(s: Store, d: Table, e: Table, f: Table, table: Ref, m: map<string, string>, name: string, target: string)
    requires WellFormed(s) && table in s && s[table].ObjCell? && AllocatedSoFar(s, d, e, table, m) && name in s[table].fields
    requires SlotIn(s, s[table].fields[name]) && DocOf(s, s[table].fields[name]) == TreeOf(s, table).fields[name]
    requires f == if target in e then e else e[target := s[table].fields[name]]
    requires target in e ==> DocOf(s, e[target]) == TreeOf(s, table).fields[name]
    ensures AllocatedSoFar(s, d, f, table, m[name := target])
  {
  }

  ghost predicate PlacedSoFar(s: Store, d: Table, e: Table, table: Ref, m: map<string, string>, placed: seq<Components>, order: seq<string>)
    requires WellFormed(s) && TableIn(s, d) && TableIn(s, e) && table in s && s[table].ObjCell?
  {
    Placing(placed, order, TreeOf(s, table).fields, m) && placed[0] == Abs(s, d) && placed[|order|] == Abs(s, e)
  }

  lemma PlacedMore(s: Store, d: Table, e: Table, f: Table, table: Ref, m: map<string, string>, placed: seq<Components>, order: seq<string>, name: string, target: string)
    requires WellFormed(s) && TableIn(s, d) && TableIn(s, e) && TableIn(s, f) && table in s && s[table].ObjCell? && name in s[table].fields
    requires PlacedSoFar(s, d, e, table, m, placed, order) && name !in order
    requires SlotIn(s, s[table].fields[name]) && DocOf(s, s[table].fields[name]) == TreeOf(s, table).fields[name]
    requires FirstFit(Abs(s, e), name, DocOf(s, s[table].fields[name]), target)
    requires f == if target in e then e else e[target := s[table].fields[name]]
    ensures PlacedSoFar(s, d, f, table, m[name := target], placed + [Abs(s, f)], order + [name])
  {
    var slot := s[table].fields[name];
    assert Fits(Abs(s, e), target, DocOf(s, slot));
    assert Abs(s, f) == Abs(s, e)[target := DocOf(s, slot)];
    PlacedOneMore(placed, order, TreeOf(s, table).fields, m, name, target, Abs(s, f));
  }

  ghost predicate Underway(s: Store, d: Table, e: Table, table: Ref, m: map<string, string>, placed: seq<Components>, order: seq<string>) {
    && WellFormed(s) && TableIn(s, d) && table in s
    && match s[table]
       case ObjCell(_) => AllocatedSoFar(s, d, e, table, m) && PlacedSoFar(s, d, e, table, m, placed, order)
       case ArrCell(_) => false
  }

  lemma Done(s: Store, d: Table, e: Table, table: Ref, m: map<string, string>, placed: seq<Components>, order: seq<string>)
    requires Underway(s, d, e, table, m, placed, order) && KeysOnce(s[table].fields, order)
    requires forall name :: name in m <==> name in order
    ensures TableIn(s, e) && EntriesOnly(d, e, s[table].fields)
    ensures Allocated(Abs(s, d), Abs(s, e), TreeOf(s, table).fields, m)
    ensures Placing(placed, order, TreeOf(s, table).fields, m) && placed[0] == Abs(s, d) && placed[|order|] == Abs(s, e)
  {
    AllocatedAll(s, d, e, table, m);
  }

  class Document {
    var cells: Store
    var components: Table

    constructor (cells: Store, components: Table)
      ensures this.cells == cells && this.components == components
    {
      this.cells, this.components := cells, components;
    }

    /** Follows the renaming of a table in everything the slot holds, in place. */
    method RewriteRefs(slot: Slot, names: map<string, string>)
      requires WellFormed(cells) && SlotIn(cells, slot)
      modifies this`cells
      ensures WellFormed(cells) && RewrittenOn(old(cells), cells, SlotReach(old(cells), slot), names)
      decreases Rank(slot), 2
    {
      if slot.Plain? { return; }
      var r := slot.ref;
      ghost var was := cells;
      cells := cells[r := RewriteCell(cells[r], names)];
      ghost var now := cells;
      RewrittenWellFormed(was, now, {r}, names);
      var slots := [];
      if cells[r].ArrCell? {
        slots := cells[r].items;
      } else {
        var ks := KeysOf(cells[r].fields);
        slots := SlotsOf(cells[r].fields, ks);
        ObjLists(now, r, ks);
      }
      ReachOfMembers(now, r, slots);
      ghost var trace := RewriteSlots(r, slots, names);
      assert RewrittenAt(trace, |slots|, slots, names);
      NodeRewritten(was, now, cells, r, slots, names);
    }

    /** The members one after the other; `trace` is the stores in between. */
    method RewriteSlots(r: Ref, slots: seq<Slot>, names: map<string, string>) returns (ghost trace: seq<Store>)
      requires WellFormed(cells) && SlotsIn(cells, slots) && AllBelow(slots, r)
      modifies this`cells
      ensures RewriteTraced(trace, slots, names) && |trace| == |slots| + 1
      ensures trace[0] == old(cells) && trace[|slots|] == cells
      decreases r + 1, 1
    {
      trace := [cells];
      RewriteStarts(cells, slots, names);
      var i := 0;
      while i < |slots|
        invariant 0 <= i <= |slots| && |trace| == i + 1 && trace[i] == cells && trace[0] == old(cells)
        invariant RewriteTraced(trace, slots, names)
      {
        RewriteNext(r, slots, i, names, trace);
        RewriteExtends(trace, cells, slots, names);
        trace := trace + [cells];
        i := i + 1;
      }
    }

    method RewriteNext(r: Ref, slots: seq<Slot>, n: nat, names: map<string, string>, ghost trace: seq<Store>)
      requires RewriteTraced(trace, slots, names) && |trace| == n + 1 <= |slots| && trace[n] == cells && AllBelow(slots, r)
      modifies this`cells
      ensures RewriteTo(trace[n], cells, slots[n], names)
      decreases r + 1, 0
    {
      assert RewrittenAt(trace, n, slots, names);
      assert SlotBelow(slots[n], r);
      RewriteRefs(slots[n], names);
    }

    /** Finds the component that stands for a definition, inserting the object if need be. */
    method EnsureComponent(name: string, slot: Slot) returns (target: string)
      requires WellFormed(cells) && TableIn(cells, components) && SlotIn(cells, slot)
      modifies this`components
      ensures TableIn(cells, components)
      ensures FirstFit(Abs(cells, old(components)), name, DocOf(cells, slot), target)
      ensures target in old(components) ==> DocOf(cells, old(components)[target]) == DocOf(cells, slot)
      ensures components == if target in old(components) then old(components) else old(components)[target := slot]
    {
      target := FindTarget(Abs(cells, components), name, DocOf(cells, slot));
      if target !in components { components := components[target := slot]; }
    }

    /** A component for each entry of a table, in whatever order the table lists them. */
    method Allocate(table: Ref) returns (m: map<string, string>, ghost placed: seq<Components>, order: seq<string>)
      requires WellFormed(cells) && TableIn(cells, components) && table in cells && cells[table].ObjCell?
      modifies this`components
      ensures TableIn(cells, components) && EntriesOnly(old(components), components, cells[table].fields)
      ensures Allocated(Abs(cells, old(components)), Abs(cells, components), TreeOf(cells, table).fields, m)
      ensures KeysOnce(cells[table].fields, order) && Placing(placed, order, TreeOf(cells, table).fields, m)
      ensures placed[0] == Abs(cells, old(components)) && placed[|order|] == Abs(cells, components)
    {
      order := KeysOf(cells[table].fields);
      m, placed := PlaceEntries(table, order);
      Done(cells, old(components), components, table, m, placed, order);
    }

    method PlaceEntries(table: Ref, ks: seq<string>) returns (m: map<string, string>, ghost placed: seq<Components>)
      requires WellFormed(cells) && TableIn(cells, components) && table in cells && cells[table].ObjCell? && KeysOnce(cells[table].fields, ks)
      modifies this`components
      ensures Underway(cells, old(components), components, table, m, placed, ks) && forall name :: name in m <==> name in ks
    {
      m, placed := map[], [Abs(cells, components)];
      ghost var order := [];
      var i := 0;
      while i < |ks|
        invariant 0 <= i <= |ks| && order == ks[..i] && (forall name :: name in m <==> name in order)
        invariant Underway(cells, old(components), components, table, m, placed, order)
      {
        assert ks[i] in ks && ks[i] !in order;
        var target := PlaceEntry(table, ks[i], m, old(components), placed, order);
        placed, order := placed + [Abs(cells, components)], order + [ks[i]];
        m := m[ks[i] := target];
        i := i + 1;
      }
      assert order == ks;
    }

    method PlaceEntry(table: Ref, name: string, ghost m: map<string, string>, ghost d: Table, ghost placed: seq<Components>, ghost order: seq<string>)
      returns (target: string)
      requires Underway(cells, d, components, table, m, placed, order) && name in cells[table].fields && name !in order
      modifies this`components
      ensures TableIn(cells, components)
      ensures Underway(cells, d, components, table, m[name := target], placed + [Abs(cells, components)], order + [name])
    {
      ghost var before := components;
      EntryTree(cells, table, name);
      target := EnsureComponent(name, cells[table].fields[name]);
      AllocatedMore(cells, d, before, components, table, m, name, target);
      PlacedMore(cells, d, before, components, table, m, placed, order, name, target);
    }

    /** Depth first: the tables inside a value before its own. Everything happens in the
        objects themselves; `names` are those of the table around the slot. */
    method Walk(slot: Slot, ghost names: set<string>, ghost shared: set<string>)
      requires Enterable(Snapshot(cells, components), slot, names, shared)
      modifies this
      ensures StepTo(Snapshot(old(cells), old(components)), Snapshot(cells, components), slot, names)
      decreases Rank(slot), 3
    {
      if slot.Plain? {
        PlainWalked(cells, components, slot, names);
        return;
      }
      if cells[slot.ref].ArrCell? {
        WalkArray(slot.ref, names, shared);
      } else {
        WalkObject(slot.ref, names, shared);
      }
    }

    method WalkArray(r: Ref, ghost names: set<string>, ghost shared: set<string>)
      requires WellFormed(cells) && TableIn(cells, components) && r in cells && cells[r].ArrCell?
      requires Treelike(cells, To(r)) && Apart(cells, components, To(r)) && AllClean(Abs(cells, components))
      requires Resolved(TreeOf(cells, r), names, shared)
      modifies this
      ensures WalkedOne(old(cells), old(components), cells, components, To(r), names)
      decreases r + 1, 2
    {
      ghost var s, c := cells, components;
      ArrSlots(s, c, r);
      ArrResolved(s, r, names, shared);
      ghost var trace := WalkSlots(r, cells[r].items, names, shared);
      assert WalkedAt(trace, |s[r].items|, s[r].items, names);
      ArrWalked(s, c, cells, components, r, names);
    }

    /** The members one after the other; `trace` is the states in between. */
    method WalkSlots(r: Ref, slots: seq<Slot>, ghost names: set<string>, ghost shared: set<string>) returns (ghost trace: seq<Snapshot>)
      requires Startable(Snapshot(cells, components), slots) && AllResolved(cells, slots, r, names, shared)
      modifies this
      ensures Traced(trace, slots, names) && |trace| == |slots| + 1
      ensures trace[0] == Snapshot(old(cells), old(components)) && trace[|slots|] == Snapshot(cells, components)
      decreases r + 1, 1
    {
      trace := [Snapshot(cells, components)];
      TraceStarts(Snapshot(cells, components), slots, names);
      var i := 0;
      while i < |slots|
        invariant 0 <= i <= |slots| && |trace| == i + 1 && trace[i] == Snapshot(cells, components)
        invariant trace[0] == Snapshot(old(cells), old(components)) && Traced(trace, slots, names)
      {
        WalkNext(r, slots, i, names, shared, trace);
        TraceExtends(trace, Snapshot(cells, components), slots, names);
        trace := trace + [Snapshot(cells, components)];
        i := i + 1;
      }
    }

    method WalkNext(r: Ref, slots: seq<Slot>, n: nat, ghost names: set<string>, ghost shared: set<string>, ghost trace: seq<Snapshot>)
      requires Traced(trace, slots, names) && |trace| == n + 1 <= |slots| && trace[n] == Snapshot(cells, components)
      requires AllResolved(trace[0].cells, slots, r, names, shared)
      modifies this
      ensures StepTo(trace[n], Snapshot(cells, components), slots[n], names)
      decreases r + 1, 0
    {
      MayGoOn(trace, slots, n, r, names, shared);
      Walk(slots[n], names, shared);
    }

    method WalkObject(r: Ref, ghost names: set<string>, ghost shared: set<string>)
      requires WellFormed(cells) && TableIn(cells, components) && r in cells && cells[r].ObjCell?
      requires Treelike(cells, To(r)) && Apart(cells, components, To(r)) && AllClean(Abs(cells, components))
      requires Resolved(TreeOf(cells, r), names, shared)
      modifies this
      ensures WalkedOne(old(cells), old(components), cells, components, To(r), names)
      decreases r + 1, 2
    {
      ghost var s, c := cells, components;
      var ks := KeysOf(cells[r].fields);
      ghost var inner := NamesIn(TreeOf(s, r).fields, names);
      ObjLists(s, r, ks);
      ObjSlots(s, c, r, ks);
      ObjResolved(s, r, ks, names, shared);
      ghost var trace := WalkSlots(r, SlotsOf(cells[r].fields, ks), inner, shared);
      assert WalkedAt(trace, |ks|, SlotsOf(s[r].fields, ks), inner);
      ObjMoved(s, c, cells, components, r, ks, inner);
      FinishObject(r, s, c, ks, names, shared);
    }

    /** The members are walked: if the object has a table, its entries become components,
        references follow, and the table goes. */
    method FinishObject(r: Ref, ghost s: Store, ghost c: Table, ghost ks: seq<string>, ghost names: set<string>, ghost shared: set<string>)
      requires WellFormed(s) && TableIn(s, c) && r in s && s[r].ObjCell? && KeysOnce(s[r].fields, ks)
      requires Resolved(TreeOf(s, r), names, shared)
      requires MembersWalked(s, c, cells, components, r, ks, NamesIn(TreeOf(s, r).fields, names))
      modifies this
      ensures WalkedOne(s, c, cells, components, To(r), names)
    {
      ghost var t, d := cells, components;
      TableCell(s, t, d, r, NamesIn(TreeOf(s, r).fields, names));
      if TABLE in cells[r].fields && cells[r].fields[TABLE].To? && cells[cells[r].fields[TABLE].ref].ObjCell? {
        var table := cells[r].fields[TABLE].ref;
        TableTree(t, r, table);
        var m, order;
        ghost var placed;
        m, placed, order := Allocate(table);
        RewriteRefs(To(r), m);
        ghost var u := cells;
        cells := WithoutTable(cells, r);
        TableObjWalked(s, c, t, d, components, u, r, table, m, names);
      } else {
        PlainObject(s, c, t, d, r, ks, names, shared);
      }
    }

    /** The whole document means what it meant, with the shared components alone to look in. */
    method Rebase(root: Slot)
      requires Enterable(Snapshot(cells, components), root, {}, components.Keys)
      requires Closed(Abs(cells, components))
      modifies this
      ensures WellFormed(cells) && TableIn(cells, components) && SlotIn(cells, root)
      ensures Clean(DocOf(cells, root)) && AllClean(Abs(cells, components))
      ensures Extends(Abs(old(cells), old(components)), Abs(cells, components))
      ensures forall n :: Unfold(n, DocOf(old(cells), root), map[], Abs(old(cells), old(components)))
                       == Unfold(n, DocOf(cells, root), map[], Abs(cells, components))
    {
      ghost var before := Snapshot(cells, components);
      Walk(root, {}, components.Keys);
      MeaningAfter(before, Snapshot(cells, components), root);
    }
  }

  lemma RootResolved(s: Store, root: Slot, names: set<string>, shared: set<string>)
    requires WellFormed(s) && SlotIn(s, root) && SlotResolved(s, root, names, shared)
    ensures Resolved(DocOf(s, root), names, shared)
  {
  }

  lemma ComponentsGrow(a: Snapshot, b: Snapshot, root: Slot)
    requires Enterable(a, root, {}, a.components.Keys) && StepTo(a, b, root, {})
    ensures WellFormed(b.cells) && TableIn(b.cells, b.components)
    ensures Extends(Abs(a.cells, a.components), Abs(b.cells, b.components))
  {
    FrameKeepsTable(a.cells, b.cells, a.components, SlotReach(a.cells, root));
  }

  lemma MeaningAfter(a: Snapshot, b: Snapshot, root: Slot)
    requires Enterable(a, root, {}, a.components.Keys) && Closed(Abs(a.cells, a.components)) && StepTo(a, b, root, {})
    ensures Extends(Abs(a.cells, a.components), Abs(b.cells, b.components)) && Clean(DocOf(b.cells, root))
    ensures forall n :: Unfold(n, DocOf(a.cells, root), map[], Abs(a.cells, a.components))
                     == Unfold(n, DocOf(b.cells, root), map[], Abs(b.cells, b.components))
  {
    var before := Abs(a.cells, a.components);
    assert before.Keys == a.components.Keys;
    ComponentsGrow(a, b, root);
    RootResolved(a.cells, root, {}, before.Keys);
    HoistedMeans(DocOf(a.cells, root), DocOf(b.cells, root), before, Abs(b.cells, b.components));
  }

  /** The names in force inside an object. */
  ghost function NamesIn(fields: map<string, Json>, names: set<string>): set<string> {
    if HasTable(fields) then Entries(fields).Keys else names
  }

  lemma PlainWalked(s: Store, c: Table, slot: Slot, names: set<string>)
    requires WellFormed(s) && TableIn(s, c) && SlotIn(s, slot) && slot.Plain? && AllClean(Abs(s, c))
    ensures WalkedOne(s, c, s, c, slot, names)
  {
    forall m ensures Hoisted(slot.value, m, Rewrite(slot.value, m), Abs(s, c)) { }
  }

  lemma ArrResolved(s: Store, r: Ref, names: set<string>, shared: set<string>)
    requires WellFormed(s) && r in s && s[r].ArrCell? && Resolved(TreeOf(s, r), names, shared)
    ensures forall i :: 0 <= i < |s[r].items| ==> SlotBelow(s[r].items[i], r) && SlotResolved(s, s[r].items[i], names, shared)
  {
    forall i | 0 <= i < |s[r].items| ensures SlotBelow(s[r].items[i], r) && SlotResolved(s, s[r].items[i], names, shared) {
      assert s[r].items[i] in Slots(s[r]);
      assert TreeOf(s, r).items[i] == Child(s, r, s[r].items[i]) == DocOf(s, s[r].items[i]);
    }
  }

  lemma ObjResolved(s: Store, r: Ref, ks: seq<string>, names: set<string>, shared: set<string>)
    requires WellFormed(s) && r in s && s[r].ObjCell? && KeysOnce(s[r].fields, ks) && Resolved(TreeOf(s, r), names, shared)
    ensures var slots := SlotsOf(s[r].fields, ks);
      forall i :: 0 <= i < |slots| ==>
        SlotBelow(slots[i], r) && SlotResolved(s, slots[i], NamesIn(TreeOf(s, r).fields, names), shared)
  {
    var slots := SlotsOf(s[r].fields, ks);
    forall i | 0 <= i < |slots|
      ensures SlotBelow(slots[i], r) && SlotResolved(s, slots[i], NamesIn(TreeOf(s, r).fields, names), shared)
    {
      assert slots[i] in Slots(s[r]);
      assert TreeOf(s, r).fields[ks[i]] == Child(s, r, slots[i]) == DocOf(s, slots[i]);
    }
  }

  /** What is known of an object whose members have been walked. */
  ghost predicate MembersWalked(s: Store, c: Table, t: Store, d: Table, r: Ref, ks: seq<string>, inner: set<string>)
    requires WellFormed(s) && TableIn(s, c) && r in s && s[r].ObjCell? && KeysOnce(s[r].fields, ks)
  {
    && r in t && t[r] == s[r] && Moved(s, c, t, d, Reach(s, r)) && Reach(t, r) <= Reach(s, r) && Apart(t, d, To(r))
    && MembersReady(TreeOf(s, r).fields, TreeOf(t, r).fields, inner, Abs(t, d))
    && (TABLE in s[r].fields && SlotIn(t, t[r].fields[TABLE]) ==> TableApart(t, r))
  }

  lemma ObjMoved(s: Store, c: Table, t: Store, d: Table, r: Ref, ks: seq<string>, inner: set<string>)
    requires WellFormed(s) && TableIn(s, c) && r in s && s[r].ObjCell? && KeysOnce(s[r].fields, ks)
    requires Treelike(s, To(r)) && Apart(s, c, To(r))
    requires var slots := SlotsOf(s[r].fields, ks);
      Lists(s, r, slots) && Walkable(s, c, slots) && Walked(s, c, t, d, slots, |slots|, SlotsReach(s, slots, |slots|), inner)
    ensures MembersWalked(s, c, t, d, r, ks, inner)
  {
    var slots := SlotsOf(s[r].fields, ks);
    NodeMoved(s, c, t, d, r, slots, inner);
    ObjMembers(s, c, t, d, r, ks, inner);
    assert MembersApart(s, s[r]);
    if TABLE in s[r].fields && SlotIn(t, t[r].fields[TABLE]) {
      forall i | 0 <= i < |ks| ensures SlotIn(s, s[r].fields[ks[i]]) && SlotWalked(s, t, d, s[r].fields[ks[i]], SlotsReach(s, slots, |slots|), inner) {
        assert slots[i] == s[r].fields[ks[i]];
      }
      TableStaysApart(s, t, d, r, ks, SlotsReach(s, slots, |slots|), inner);
    }
  }

  /** An object has a table before the walk of its members exactly when it has one after. */
  lemma TableCell(s: Store, t: Store, d: Table, r: Ref, inner: set<string>)
    requires WellFormed(s) && WellFormed(t) && TableIn(t, d) && r in s && r in t && s[r].ObjCell? && t[r] == s[r]
    requires MembersReady(TreeOf(s, r).fields, TreeOf(t, r).fields, inner, Abs(t, d))
    ensures TABLE in t[r].fields ==> SlotIn(t, t[r].fields[TABLE])
    ensures HasTable(TreeOf(s, r).fields) <==> TABLE in t[r].fields && t[r].fields[TABLE].To? && t[t[r].fields[TABLE].ref].ObjCell?
  {
    if TABLE in t[r].fields {
      var slot := t[r].fields[TABLE];
      assert slot in Slots(t[r]) && slot in Slots(s[r]);
      assert TreeOf(t, r).fields[TABLE] == Child(t, r, slot);
      ReadyKind(TreeOf(s, r).fields[TABLE], TreeOf(t, r).fields[TABLE], Abs(t, d));
    }
  }

  lemma PlainObject(s: Store, c: Table, t: Store, d: Table, r: Ref, ks: seq<string>, names: set<string>, shared: set<string>)
    requires WellFormed(s) && TableIn(s, c) && r in s && s[r].ObjCell? && KeysOnce(s[r].fields, ks)
    requires Resolved(TreeOf(s, r), names, shared) && !HasTable(TreeOf(s, r).fields)
    requires MembersWalked(s, c, t, d, r, ks, names)
    ensures WalkedOne(s, c, t, d, To(r), names)
  {
    PlainReady(TreeOf(s, r).fields, TreeOf(t, r).fields, names, Abs(t, d));
  }

  lemma AllocatedAll(s: Store, d: Table, e: Table, table: Ref, m: map<string, string>)
    requires WellFormed(s) && TableIn(s, d) && TableIn(s, e) && table in s && s[table].ObjCell? && EntriesOnly(d, e, s[table].fields)
    requires forall name :: name in m <==> name in s[table].fields
    requires forall name :: name in m ==> m[name] in e && DocOf(s, e[m[name]]) == TreeOf(s, table).fields[name]
    ensures Allocated(Abs(s, d), Abs(s, e), TreeOf(s, table).fields, m)
  {
    var entries := TreeOf(s, table).fields;
    assert m.Keys == entries.Keys;
    forall c | c in e && c !in d ensures exists name :: name in entries && Abs(s, e)[c] == entries[name] {
      var name :| name in s[table].fields && e[c] == s[table].fields[name];
      assert s[table].fields[name] in Slots(s[table]);
      assert entries[name] == Child(s, table, s[table].fields[name]);
    }
  }
}
