/** Walking a tree of objects in place, one member after the other: what one walk leaves
    alone, and what several walks in a row have done. */
module Walks {
  import opened Hoist
  import opened Objects

  // ----- walks ------------------------------------------------------------------------

  /** No two members of an object share anything. */
  ghost predicate MembersApart(s: Store, c: Cell)
    requires WellFormed(s) && forall slot :: slot in Slots(c) ==> SlotIn(s, slot)
  {
    match c
    case ArrCell(items) => forall i, j :: 0 <= i < j < |items| ==> SlotReach(s, items[i]) !! SlotReach(s, items[j])
    case ObjCell(fields) => forall k, l :: k in fields && l in fields && k != l ==> SlotReach(s, fields[k]) !! SlotReach(s, fields[l])
  }

  function Rank(slot: Slot): nat {
    if slot.To? then slot.ref + 1 else 0
  }

  /** What a parser makes is a tree. */
  ghost predicate Treelike(s: Store, slot: Slot)
    requires WellFormed(s) && SlotIn(s, slot)
    decreases Rank(slot)
  {
    match slot
    case Plain(_) => true
    case To(r) =>
      MembersApart(s, s[r])
      && forall member :: member in Slots(s[r]) && Rank(member) < Rank(slot) && SlotIn(s, member) ==> Treelike(s, member)
  }

  type Table = map<string, Slot>

  ghost predicate TableIn(s: Store, c: Table) {
    forall name :: name in c ==> SlotIn(s, c[name])
  }

  /** The components as documents. */
  function Abs(s: Store, c: Table): Components
    requires WellFormed(s) && TableIn(s, c)
  {
    map name | name in c :: DocOf(s, c[name])
  }

  /** No component shares anything with what is being walked. */
  ghost predicate Apart(s: Store, c: Table, slot: Slot)
    requires WellFormed(s) && TableIn(s, c) && SlotIn(s, slot)
  {
    forall name :: name in c ==> SlotReach(s, c[name]) !! SlotReach(s, slot)
  }

  ghost predicate Frame(s: Store, t: Store, part: set<Ref>) {
    t.Keys == s.Keys && forall q :: q in s && q !in part ==> t[q] == s[q]
  }

  ghost predicate Added(s: Store, c: Table, t: Store, d: Table, part: set<Ref>)
    requires WellFormed(t) && TableIn(t, d)
  {
    && (forall name :: name in c ==> name in d && d[name] == c[name])
    && (forall name :: name in d && name !in c ==> SlotReach(t, d[name]) <= part)
  }

  /** What walking `slots` one after the other has done. */
  ghost predicate Walked(s: Store, c: Table, t: Store, d: Table, slots: seq<Slot>, n: nat, part: set<Ref>, names: set<string>)
    requires WellFormed(s) && n <= |slots| && forall i :: 0 <= i < |slots| ==> SlotIn(s, slots[i])
  {
    Moved(s, c, t, d, part) && forall i :: 0 <= i < n ==> SlotWalked(s, t, d, slots[i], part, names)
  }

  /** Only `part` changed, and what components were added lie in it. */
  ghost predicate Moved(s: Store, c: Table, t: Store, d: Table, part: set<Ref>) {
    WellFormed(t) && TableIn(t, d) && Frame(s, t, part) && Added(s, c, t, d, part) && AllClean(Abs(t, d))
  }

  /** The part of it that concerns one slot. */
  ghost predicate SlotWalked(s: Store, t: Store, d: Table, slot: Slot, part: set<Ref>, names: set<string>)
    requires WellFormed(s) && WellFormed(t) && TableIn(t, d) && SlotIn(s, slot)
  {
    && SlotIn(t, slot) && SlotReach(s, slot) <= part && SlotReach(t, slot) <= SlotReach(s, slot)
    && Apart(t, d, slot)
    && Open(DocOf(t, slot), names) && Ready(DocOf(s, slot), DocOf(t, slot), Abs(t, d))
  }

  ghost predicate WalkedOne(s: Store, c: Table, t: Store, d: Table, slot: Slot, names: set<string>)
    requires WellFormed(s) && SlotIn(s, slot)
  {
    Moved(s, c, t, d, SlotReach(s, slot)) && SlotWalked(s, t, d, slot, SlotReach(s, slot), names)
  }

  lemma FrameKeepsTable(s: Store, t: Store, c: Table, part: set<Ref>)
    requires WellFormed(s) && WellFormed(t) && TableIn(s, c) && Frame(s, t, part)
    requires forall name :: name in c ==> SlotReach(s, c[name]) !! part
    ensures TableIn(t, c) && Abs(t, c) == Abs(s, c)
    ensures forall name :: name in c ==> SlotReach(t, c[name]) == SlotReach(s, c[name])
  {
    forall name | name in c
      ensures SlotIn(t, c[name]) && DocOf(t, c[name]) == DocOf(s, c[name]) && SlotReach(t, c[name]) == SlotReach(s, c[name])
    {
      ReachKnown(s, c[name]);
      SameSlot(s, t, c[name]);
    }
  }

  lemma ReachKnown(s: Store, slot: Slot)
    requires WellFormed(s) && SlotIn(s, slot)
    ensures forall q :: q in SlotReach(s, slot) ==> q in s
  {
    if slot.To? { ReachBelow(s, slot.ref); }
  }

  /** A slot that the walk of another does not touch stays walked. */
  lemma StaysWalked(s: Store, t: Store, d: Table, u: Store, e: Table, slot: Slot, part: set<Ref>, other: set<Ref>, names: set<string>)
    requires WellFormed(s) && WellFormed(t) && WellFormed(u) && TableIn(t, d) && TableIn(u, e) && SlotIn(s, slot)
    requires SlotWalked(s, t, d, slot, part, names) && SlotReach(s, slot) !! other
    requires Frame(t, u, other) && Added(t, d, u, e, other)
    requires forall name :: name in d ==> SlotReach(t, d[name]) !! other
    ensures SlotWalked(s, u, e, slot, part + other, names)
  {
    ReachKnown(t, slot);
    SameSlot(t, u, slot);
    FrameKeepsTable(t, u, d, other);
    assert Extends(Abs(t, d), Abs(u, e));
    ReadyStays(DocOf(s, slot), DocOf(t, slot), Abs(t, d), Abs(u, e));
    forall name | name in e ensures SlotReach(u, e[name]) !! SlotReach(u, slot) {
      if name in d { assert e[name] == d[name]; }
    }
  }

  // ----- one member after the other ------------------------------------------------

  ghost function SlotsReach(s: Store, slots: seq<Slot>, n: nat): set<Ref>
    requires WellFormed(s) && n <= |slots| && forall i :: 0 <= i < |slots| ==> SlotIn(s, slots[i])
  {
    if n == 0 then {} else SlotsReach(s, slots, n - 1) + SlotReach(s, slots[n - 1])
  }

  /** Slots to be walked one by one: trees, apart from each other and from the components. */
  ghost predicate Walkable(s: Store, c: Table, slots: seq<Slot>) {
    && WellFormed(s) && TableIn(s, c)
    && (forall i :: 0 <= i < |slots| ==> SlotIn(s, slots[i]) && Treelike(s, slots[i]) && Apart(s, c, slots[i]))
    && (forall i, j :: 0 <= i < j < |slots| ==> SlotReach(s, slots[i]) !! SlotReach(s, slots[j]))
  }

  lemma {:induction false} SlotsReachApart(s: Store, slots: seq<Slot>, n: nat, part: set<Ref>)
    requires WellFormed(s) && n <= |slots| && forall i :: 0 <= i < |slots| ==> SlotIn(s, slots[i])
    requires forall i :: 0 <= i < n ==> SlotReach(s, slots[i]) !! part
    ensures SlotsReach(s, slots, n) !! part
  {
    if n == 0 {
    } else {
      SlotsReachApart(s, slots, n - 1, part);
    }
  }

  lemma {:induction false} SlotsReachHolds(s: Store, slots: seq<Slot>, n: nat, i: nat)
    requires WellFormed(s) && i < n <= |slots| && forall i :: 0 <= i < |slots| ==> SlotIn(s, slots[i])
    ensures SlotReach(s, slots[i]) <= SlotsReach(s, slots, n)
  {
    if i < n - 1 { SlotsReachHolds(s, slots, n - 1, i); }
  }

  lemma {:induction false} TreelikeStays(s: Store, t: Store, slot: Slot)
    requires WellFormed(s) && WellFormed(t) && SlotIn(s, slot) && SlotIn(t, slot) && Agree(s, t, SlotReach(s, slot)) && Treelike(s, slot)
    ensures SlotReach(t, slot) == SlotReach(s, slot) && Treelike(t, slot)
    decreases Rank(slot)
  {
    SameSlot(s, t, slot);
    if slot.To? {
      forall member | member in Slots(s[slot.ref]) ensures SlotIn(t, member) && SlotReach(t, member) == SlotReach(s, member) && Treelike(t, member) {
        MemberReach(s, slot.ref, member);
        assert SlotBelow(member, slot.ref) && SlotIn(s, member);
        SameSlot(s, t, member);
        TreelikeStays(s, t, member);
      }
      MembersStayApart(s, t, slot.ref);
    }
  }

  lemma MembersStayApart(s: Store, t: Store, q: Ref)
    requires WellFormed(s) && WellFormed(t) && q in s && q in t && t[q] == s[q] && MembersApart(s, s[q])
    requires forall member :: member in Slots(s[q]) ==> SlotReach(t, member) == SlotReach(s, member)
    ensures MembersApart(t, t[q])
  {
    match s[q]
    case ArrCell(items) => assert forall i :: 0 <= i < |items| ==> items[i] in Slots(s[q]);
    case ObjCell(fields) => assert forall k :: k in fields ==> fields[k] in Slots(s[q]);
  }

  /** The walk may go on to the next slot. */
  lemma NextIsReady(s: Store, c: Table, t: Store, d: Table, slots: seq<Slot>, n: nat, names: set<string>)
    requires Walkable(s, c, slots) && n < |slots| && Walked(s, c, t, d, slots, n, SlotsReach(s, slots, n), names)
    ensures SlotsReach(s, slots, n) !! SlotReach(s, slots[n])
    ensures SlotIn(t, slots[n]) && SlotReach(t, slots[n]) == SlotReach(s, slots[n]) && DocOf(t, slots[n]) == DocOf(s, slots[n])
    ensures Treelike(t, slots[n]) && Apart(t, d, slots[n])
  {
    var part := SlotsReach(s, slots, n);
    SlotsReachApart(s, slots, n, SlotReach(s, slots[n]));
    ReachKnown(s, slots[n]);
    SameSlot(s, t, slots[n]);
    TreelikeStays(s, t, slots[n]);
    forall name | name in c ensures SlotReach(s, c[name]) !! part { SlotsReachApart(s, slots, n, SlotReach(s, c[name])); }
    FrameKeepsTable(s, t, c, part);
    forall name | name in d ensures SlotReach(t, d[name]) !! SlotReach(t, slots[n]) {
      if name in c { assert d[name] == c[name]; }
    }
  }

  lemma AddedBoth(s: Store, c: Table, t: Store, d: Table, u: Store, e: Table, part: set<Ref>, own: set<Ref>)
    requires WellFormed(t) && WellFormed(u) && TableIn(t, d) && TableIn(u, e) && TableIn(u, d)
    requires Added(s, c, t, d, part) && Added(t, d, u, e, own)
    requires forall name :: name in d ==> SlotReach(u, d[name]) == SlotReach(t, d[name])
    ensures Added(s, c, u, e, part + own)
  {
    forall name | name in e && name !in c ensures SlotReach(u, e[name]) <= part + own {
      if name in d { assert e[name] == d[name]; }
    }
  }

  lemma EarlierStaysWalked(s: Store, c: Table, t: Store, d: Table, u: Store, e: Table, slots: seq<Slot>, n: nat, i: nat, names: set<string>)
    requires Walkable(s, c, slots) && i < n < |slots| && Walked(s, c, t, d, slots, n, SlotsReach(s, slots, n), names)
    requires WellFormed(u) && TableIn(u, e)
    requires var own := SlotReach(s, slots[n]);
      && Frame(t, u, own) && Added(t, d, u, e, own) && (forall name :: name in d ==> SlotReach(t, d[name]) !! own)
    ensures SlotWalked(s, u, e, slots[i], SlotsReach(s, slots, n + 1), names)
  {
    StaysWalked(s, t, d, u, e, slots[i], SlotsReach(s, slots, n), SlotReach(s, slots[n]), names);
  }

  lemma LatestIsWalked(s: Store, c: Table, t: Store, d: Table, u: Store, e: Table, slots: seq<Slot>, n: nat, names: set<string>)
    requires Walkable(s, c, slots) && n < |slots| && Walked(s, c, t, d, slots, n, SlotsReach(s, slots, n), names)
    requires SlotIn(t, slots[n]) && WalkedOne(t, d, u, e, slots[n], names)
    ensures SlotWalked(s, u, e, slots[n], SlotsReach(s, slots, n + 1), names)
  {
    NextIsReady(s, c, t, d, slots, n, names);
    var own := SlotReach(s, slots[n]);
    NewSlotWalked(s, t, u, e, slots[n], SlotsReach(s, slots, n), own, names);
  }

  lemma MovedOneMore(s: Store, c: Table, t: Store, d: Table, u: Store, e: Table, part: set<Ref>, own: set<Ref>)
    requires Moved(s, c, t, d, part) && Moved(t, d, u, e, own)
    requires forall name :: name in d ==> SlotReach(t, d[name]) !! own
    ensures Moved(s, c, u, e, part + own)
  {
    FrameKeepsTable(t, u, d, own);
    AddedBoth(s, c, t, d, u, e, part, own);
  }

  lemma AllSlotsWalked(s: Store, c: Table, t: Store, d: Table, u: Store, e: Table, slots: seq<Slot>, n: nat, i: nat, names: set<string>)
    requires Walkable(s, c, slots) && i <= n < |slots| && Walked(s, c, t, d, slots, n, SlotsReach(s, slots, n), names)
    requires SlotIn(t, slots[n]) && WalkedOne(t, d, u, e, slots[n], names)
    ensures SlotWalked(s, u, e, slots[i], SlotsReach(s, slots, n + 1), names)
  {
    if i == n {
      LatestIsWalked(s, c, t, d, u, e, slots, n, names);
    } else {
      NextIsReady(s, c, t, d, slots, n, names);
      EarlierStaysWalked(s, c, t, d, u, e, slots, n, i, names);
    }
  }

  lemma WalkedOneMore(s: Store, c: Table, t: Store, d: Table, u: Store, e: Table, slots: seq<Slot>, n: nat, names: set<string>)
    requires Walkable(s, c, slots) && n < |slots| && Walked(s, c, t, d, slots, n, SlotsReach(s, slots, n), names)
    requires SlotIn(t, slots[n]) && WalkedOne(t, d, u, e, slots[n], names)
    ensures Walked(s, c, u, e, slots, n + 1, SlotsReach(s, slots, n + 1), names)
  {
    NextIsReady(s, c, t, d, slots, n, names);
    forall i: nat | i < n + 1 ensures SlotWalked(s, u, e, slots[i], SlotsReach(s, slots, n + 1), names) {
      AllSlotsWalked(s, c, t, d, u, e, slots, n, i, names);
    }
    MovedOneMore(s, c, t, d, u, e, SlotsReach(s, slots, n), SlotReach(t, slots[n]));
  }

  lemma NewSlotWalked(s: Store, t: Store, u: Store, e: Table, slot: Slot, part: set<Ref>, own: set<Ref>, names: set<string>)
    requires WellFormed(s) && WellFormed(t) && WellFormed(u) && TableIn(u, e) && SlotIn(s, slot) && SlotIn(t, slot)
    requires DocOf(t, slot) == DocOf(s, slot) && SlotReach(t, slot) == SlotReach(s, slot)
    requires SlotWalked(t, u, e, slot, own, names)
    ensures SlotWalked(s, u, e, slot, part + own, names)
  {
  }

  // ----- a whole object, its members walked -------------------------------------------

  /** `slots` lists the members of `r`, each once. */
  ghost predicate Lists(s: Store, r: Ref, slots: seq<Slot>)
    requires r in s
  {
    && (forall i :: 0 <= i < |slots| ==> slots[i] in Slots(s[r]))
    && (forall slot :: slot in Slots(s[r]) ==> slot in slots)
  }

  lemma {:induction false} MembersWithin(s: Store, r: Ref, slots: seq<Slot>, n: nat)
    requires WellFormed(s) && r in s && n <= |slots| && forall i :: 0 <= i < |slots| ==> slots[i] in Slots(s[r])
    ensures SlotsReach(s, slots, n) <= Reach(s, r) && r !in SlotsReach(s, slots, n)
  {
    if n == 0 {
    } else {
      MembersWithin(s, r, slots, n - 1);
      MemberReach(s, r, slots[n - 1]);
      BothWithin(SlotsReach(s, slots, n - 1), SlotReach(s, slots[n - 1]), Reach(s, r), r);
    }
  }

  lemma BothWithin(a: set<Ref>, b: set<Ref>, all: set<Ref>, r: Ref)
    requires a <= all && b <= all && r !in a && r !in b
    ensures a + b <= all && r !in a + b
  {
  }

  /** The members are walked, so the object is: nothing outside it moved, it only lost
      objects, and the components are apart from what is left of it. */
  lemma NodeMoved(s: Store, c: Table, t: Store, d: Table, r: Ref, slots: seq<Slot>, names: set<string>)
    requires WellFormed(s) && r in s && Lists(s, r, slots) && Walkable(s, c, slots) && Apart(s, c, To(r))
    requires Walked(s, c, t, d, slots, |slots|, SlotsReach(s, slots, |slots|), names)
    ensures r in t && t[r] == s[r] && Moved(s, c, t, d, Reach(s, r)) && Reach(t, r) <= Reach(s, r) && Apart(t, d, To(r))
  {
    var part := SlotsReach(s, slots, |slots|);
    MembersWithin(s, r, slots, |slots|);
    assert t[r] == s[r];
    NodeShrinks(s, t, r, slots, d, part, names);
    FrameKeepsTable(s, t, c, part);
    forall name | name in d ensures SlotReach(t, d[name]) !! Reach(t, r) {
      if name in c {
        assert d[name] == c[name];
      } else {
        ComponentApart(s, t, d, r, slots, part, names, name);
      }
    }
  }

  lemma NodeShrinks(s: Store, t: Store, r: Ref, slots: seq<Slot>, d: Table, part: set<Ref>, names: set<string>)
    requires WellFormed(s) && WellFormed(t) && TableIn(t, d) && r in s && r in t && t[r] == s[r] && Lists(s, r, slots)
    requires forall i :: 0 <= i < |slots| ==> SlotIn(s, slots[i]) && SlotWalked(s, t, d, slots[i], part, names)
    ensures Reach(t, r) <= Reach(s, r)
  {
    forall slot, q | slot in Slots(t[r]) && slot.To? && slot.ref < r && slot.ref in t && q in Reach(t, slot.ref) ensures q in Reach(s, r) {
      var i :| 0 <= i < |slots| && slots[i] == slot;
      MemberReach(s, r, slot);
    }
  }

  lemma ComponentApart(s: Store, t: Store, d: Table, r: Ref, slots: seq<Slot>, part: set<Ref>, names: set<string>, name: string)
    requires WellFormed(s) && WellFormed(t) && TableIn(t, d) && r in s && r in t && t[r] == s[r] && Lists(s, r, slots)
    requires forall i :: 0 <= i < |slots| ==> SlotIn(s, slots[i]) && SlotWalked(s, t, d, slots[i], part, names)
    requires name in d && SlotReach(t, d[name]) <= part && r !in part
    ensures SlotReach(t, d[name]) !! Reach(t, r)
  {
    forall slot, q | slot in Slots(t[r]) && slot.To? && slot.ref < r && slot.ref in t && q in Reach(t, slot.ref) ensures q !in SlotReach(t, d[name]) {
      var i :| 0 <= i < |slots| && slots[i] == slot;
    }
  }

  lemma ArrTree(s: Store, t: Store, d: Table, r: Ref, part: set<Ref>, names: set<string>)
    requires WellFormed(s) && WellFormed(t) && TableIn(t, d) && r in s && s[r].ArrCell? && r in t && t[r] == s[r]
    requires forall i :: 0 <= i < |s[r].items| ==> SlotIn(s, s[r].items[i]) && SlotWalked(s, t, d, s[r].items[i], part, names)
    ensures Open(TreeOf(t, r), names) && Ready(TreeOf(s, r), TreeOf(t, r), Abs(t, d))
  {
    var items, was, now := s[r].items, TreeOf(s, r), TreeOf(t, r);
    forall i | 0 <= i < |items| ensures Open(now.items[i], names) && Ready(was.items[i], now.items[i], Abs(t, d)) {
      assert items[i] in Slots(s[r]) && items[i] in Slots(t[r]);
      assert SlotWalked(s, t, d, items[i], part, names);
      assert was.items[i] == Child(s, r, items[i]) == DocOf(s, items[i]);
      assert now.items[i] == Child(t, r, items[i]) == DocOf(t, items[i]);
    }
    ItemsReady(was.items, now.items, names, Abs(t, d));
  }

  lemma ArrWalked(s: Store, c: Table, t: Store, d: Table, r: Ref, names: set<string>)
    requires WellFormed(s) && r in s && s[r].ArrCell? && Lists(s, r, s[r].items) && Walkable(s, c, s[r].items) && Apart(s, c, To(r))
    requires Walked(s, c, t, d, s[r].items, |s[r].items|, SlotsReach(s, s[r].items, |s[r].items|), names)
    ensures WalkedOne(s, c, t, d, To(r), names)
  {
    NodeMoved(s, c, t, d, r, s[r].items, names);
    ArrTree(s, t, d, r, SlotsReach(s, s[r].items, |s[r].items|), names);
  }

  function SlotsOf(fields: map<string, Slot>, ks: seq<string>): (slots: seq<Slot>)
    requires forall i :: 0 <= i < |ks| ==> ks[i] in fields
    ensures |slots| == |ks| && forall i :: 0 <= i < |ks| ==> slots[i] == fields[ks[i]]
  {
    seq(|ks|, i requires 0 <= i < |ks| => fields[ks[i]])
  }

  ghost predicate KeysOnce(fields: map<string, Slot>, ks: seq<string>) {
    && (forall i :: 0 <= i < |ks| ==> ks[i] in fields) && (forall key :: key in fields ==> key in ks)
    && (forall i, j :: 0 <= i < j < |ks| ==> ks[i] != ks[j])
  }

  lemma ObjMembers(s: Store, c: Table, t: Store, d: Table, r: Ref, ks: seq<string>, names: set<string>)
    requires WellFormed(s) && r in s && s[r].ObjCell? && KeysOnce(s[r].fields, ks)
    requires var slots := SlotsOf(s[r].fields, ks);
      Walkable(s, c, slots) && Walked(s, c, t, d, slots, |slots|, SlotsReach(s, slots, |slots|), names)
    requires r in t && t[r] == s[r]
    ensures MembersReady(TreeOf(s, r).fields, TreeOf(t, r).fields, names, Abs(t, d))
  {
    var fields, slots := s[r].fields, SlotsOf(s[r].fields, ks);
    forall key | key in fields ensures Open(TreeOf(t, r).fields[key], names) && Ready(TreeOf(s, r).fields[key], TreeOf(t, r).fields[key], Abs(t, d)) {
      var i :| 0 <= i < |ks| && ks[i] == key;
      assert fields[key] in Slots(s[r]) && slots[i] == fields[key];
      assert SlotWalked(s, t, d, slots[i], SlotsReach(s, slots, |slots|), names);
    }
  }

  lemma ObjSlots(s: Store, c: Table, r: Ref, ks: seq<string>)
    requires WellFormed(s) && TableIn(s, c) && r in s && s[r].ObjCell? && KeysOnce(s[r].fields, ks)
    requires Treelike(s, To(r)) && Apart(s, c, To(r))
    ensures Lists(s, r, SlotsOf(s[r].fields, ks)) && Walkable(s, c, SlotsOf(s[r].fields, ks))
  {
    ObjLists(s, r, ks);
    assert MembersApart(s, s[r]);
    MembersWalkable(s, c, r, SlotsOf(s[r].fields, ks));
  }

  lemma ObjLists(s: Store, r: Ref, ks: seq<string>)
    requires r in s && s[r].ObjCell? && KeysOnce(s[r].fields, ks)
    ensures Lists(s, r, SlotsOf(s[r].fields, ks))
  {
    var slots := SlotsOf(s[r].fields, ks);
    forall i | 0 <= i < |slots| ensures slots[i] in Slots(s[r]) { assert s[r].fields[ks[i]] in s[r].fields.Values; }
    forall slot | slot in Slots(s[r]) ensures slot in slots {
      var key :| key in s[r].fields && s[r].fields[key] == slot;
      var i :| 0 <= i < |ks| && ks[i] == key;
      assert slots[i] == slot;
    }
  }

  lemma ArrSlots(s: Store, c: Table, r: Ref)
    requires WellFormed(s) && TableIn(s, c) && r in s && s[r].ArrCell? && Treelike(s, To(r)) && Apart(s, c, To(r))
    ensures Lists(s, r, s[r].items) && Walkable(s, c, s[r].items)
  {
    assert MembersApart(s, s[r]);
    MembersWalkable(s, c, r, s[r].items);
  }

  lemma MembersWalkable(s: Store, c: Table, r: Ref, slots: seq<Slot>)
    requires WellFormed(s) && TableIn(s, c) && r in s && Treelike(s, To(r)) && Apart(s, c, To(r))
    requires forall i :: 0 <= i < |slots| ==> slots[i] in Slots(s[r])
    requires forall i, j :: 0 <= i < j < |slots| && SlotIn(s, slots[i]) && SlotIn(s, slots[j]) ==> SlotReach(s, slots[i]) !! SlotReach(s, slots[j])
    ensures Walkable(s, c, slots)
  {
    forall i | 0 <= i < |slots| ensures SlotIn(s, slots[i]) && Treelike(s, slots[i]) && Apart(s, c, slots[i]) {
      MemberReach(s, r, slots[i]);
      assert SlotBelow(slots[i], r);
    }
  }
}
