/** Documents as objects that refer to each other: what an object stands for, what it is
    made of, and what rewriting its references in place comes to. */
module Objects {
  import opened Hoist

  type Ref = nat

  /** A member is a plain value, or a reference to an object or array. */
  datatype Slot = Plain(value: Json) | To(ref: Ref)

  datatype Cell = ArrCell(items: seq<Slot>) | ObjCell(fields: map<string, Slot>)

  type Store = map<Ref, Cell>

  predicate SlotIn(s: Store, slot: Slot) {
    match slot
    case Plain(v) => v.Atom? || v.Str?
    case To(c) => c in s
  }

  predicate SlotBelow(slot: Slot, r: Ref) {
    slot.To? ==> slot.ref < r
  }

  function Slots(c: Cell): set<Slot> {
    match c
    case ArrCell(items) => set slot | slot in items
    case ObjCell(fields) => fields.Values
  }

  /** A parser makes what an object holds before the object, so references go down. */
  ghost predicate WellFormed(s: Store) {
    forall r, slot {:trigger slot in Slots(s[r])} :: r in s && slot in Slots(s[r]) ==> SlotIn(s, slot) && SlotBelow(slot, r)
  }

  // ----- what an object stands for, and what it is made of -----------------------

  /** The document an object stands for. */
  function TreeOf(s: Store, r: Ref): Json
    requires WellFormed(s) && r in s
    decreases r, 1
  {
    match s[r]
    case ArrCell(items) => Arr(seq(|items|, i requires 0 <= i < |items| => Child(s, r, items[i])))
    case ObjCell(fields) => Obj(map key | key in fields :: Child(s, r, fields[key]))
  }

  function Child(s: Store, r: Ref, slot: Slot): Json
    requires WellFormed(s) && r in s && slot in Slots(s[r])
    decreases r, 0
  {
    match slot
    case Plain(v) => v
    case To(c) => TreeOf(s, c)
  }

  function DocOf(s: Store, slot: Slot): Json
    requires WellFormed(s) && SlotIn(s, slot)
  {
    match slot
    case Plain(v) => v
    case To(c) => TreeOf(s, c)
  }

  /** `q` is `r`, or held by a member of it. */
  ghost predicate Holds(s: Store, r: Ref, q: Ref)
    requires WellFormed(s) && r in s
    decreases r
  {
    q == r || exists slot :: slot in Slots(s[r]) && slot.To? && slot.ref < r && slot.ref in s && Holds(s, slot.ref, q)
  }

  /** The objects and arrays `r` holds, itself included. */
  ghost function Reach(s: Store, r: Ref): set<Ref>
    requires WellFormed(s) && r in s
  {
    set q | q in s && Holds(s, r, q)
  }

  ghost function SlotReach(s: Store, slot: Slot): set<Ref>
    requires WellFormed(s) && SlotIn(s, slot)
  {
    match slot
    case Plain(_) => {}
    case To(c) => Reach(s, c)
  }

  lemma {:induction false} HoldsBelow(s: Store, r: Ref)
    requires WellFormed(s) && r in s
    ensures forall q: Ref :: Holds(s, r, q) ==> q <= r && q in s
    decreases r
  {
    forall slot, q: Ref | slot in Slots(s[r]) && slot.To? && slot.ref < r && slot.ref in s && Holds(s, slot.ref, q) ensures q <= r && q in s {
      HoldsBelow(s, slot.ref);
    }
  }

  lemma ReachBelow(s: Store, r: Ref)
    requires WellFormed(s) && r in s
    ensures forall q :: q in Reach(s, r) ==> q <= r && q in s
  {
    HoldsBelow(s, r);
  }

  /** The same members that hold the same make the same whole. */
  lemma SameHolds(s: Store, t: Store, r: Ref)
    requires WellFormed(s) && WellFormed(t) && r in s && r in t
    requires forall slot: Slot :: slot.To? ==> (slot in Slots(t[r]) <==> slot in Slots(s[r]))
    requires forall slot :: slot in Slots(s[r]) && slot.To? ==> slot.ref in s && slot.ref in t && Reach(t, slot.ref) == Reach(s, slot.ref)
    ensures Reach(t, r) == Reach(s, r)
  {
    HoldsOneWay(s, t, r);
    HoldsOneWay(t, s, r);
  }

  lemma HoldsOneWay(s: Store, t: Store, r: Ref)
    requires WellFormed(s) && WellFormed(t) && r in s && r in t
    requires forall slot :: slot in Slots(s[r]) && slot.To? ==> slot in Slots(t[r]) && slot.ref in s && slot.ref in t && Reach(s, slot.ref) == Reach(t, slot.ref)
    ensures Reach(s, r) <= Reach(t, r)
  {
    forall q | q in Reach(s, r) ensures q in Reach(t, r) {
      if q != r {
        var slot :| slot in Slots(s[r]) && slot.To? && slot.ref < r && slot.ref in s && Holds(s, slot.ref, q);
        HoldsBelow(s, slot.ref);
        assert q in Reach(s, slot.ref);
        assert q in Reach(t, slot.ref);
      }
    }
  }

  /** What a member holds, its owner holds. */
  lemma MemberReach(s: Store, r: Ref, slot: Slot)
    requires WellFormed(s) && r in s && slot in Slots(s[r])
    ensures SlotReach(s, slot) <= Reach(s, r) && r !in SlotReach(s, slot)
  {
    if slot.To? { ReachBelow(s, slot.ref); }
  }

  ghost predicate Agree(s: Store, t: Store, part: set<Ref>) {
    forall q :: q in part ==> q in s && q in t && t[q] == s[q]
  }

  ghost predicate SameMembers(s: Store, t: Store, c: Cell)
    requires WellFormed(s) && WellFormed(t)
  {
    forall slot :: slot in Slots(c) && slot.To? ==>
      slot.ref in s && slot.ref in t && TreeOf(t, slot.ref) == TreeOf(s, slot.ref) && Reach(t, slot.ref) == Reach(s, slot.ref)
  }

  lemma SameNodeTree(s: Store, t: Store, r: Ref)
    requires WellFormed(s) && WellFormed(t) && r in s && r in t && t[r] == s[r] && SameMembers(s, t, s[r])
    ensures TreeOf(t, r) == TreeOf(s, r)
  {
    match s[r]
    case ArrCell(items) =>
      forall i | 0 <= i < |items| ensures Child(t, r, items[i]) == Child(s, r, items[i]) { assert items[i] in Slots(s[r]); }
    case ObjCell(fields) =>
      forall key | key in fields ensures Child(t, r, fields[key]) == Child(s, r, fields[key]) { assert fields[key] in Slots(s[r]); }
  }

  lemma SameNodeReach(s: Store, t: Store, r: Ref)
    requires WellFormed(s) && WellFormed(t) && r in s && r in t && t[r] == s[r] && SameMembers(s, t, s[r])
    ensures Reach(t, r) == Reach(s, r)
  {
    SameHolds(s, t, r);
  }

  /** Stores that agree on what an object is made of agree on the object. */
  lemma {:induction false} SameTree(s: Store, t: Store, r: Ref)
    requires WellFormed(s) && WellFormed(t) && r in s && Agree(s, t, Reach(s, r))
    ensures r in t && TreeOf(t, r) == TreeOf(s, r) && Reach(t, r) == Reach(s, r)
    decreases r
  {
    forall slot | slot in Slots(s[r]) && slot.To?
      ensures slot.ref in s && slot.ref in t && TreeOf(t, slot.ref) == TreeOf(s, slot.ref) && Reach(t, slot.ref) == Reach(s, slot.ref)
    {
      MemberReach(s, r, slot);
      SameTree(s, t, slot.ref);
    }
    SameNodeTree(s, t, r);
    SameNodeReach(s, t, r);
  }

  lemma SameSlot(s: Store, t: Store, slot: Slot)
    requires WellFormed(s) && WellFormed(t) && SlotIn(s, slot) && Agree(s, t, SlotReach(s, slot))
    ensures SlotIn(t, slot) && DocOf(t, slot) == DocOf(s, slot) && SlotReach(t, slot) == SlotReach(s, slot)
  {
    if slot.To? { SameTree(s, t, slot.ref); }
  }

  // ----- rewriting references in place ---------------------------------------------

  function RewriteSlot(key: string, slot: Slot, names: map<string, string>): Slot {
    if key == REF && slot.Plain? && IsLocal(slot.value) then Plain(Str(SHARED + Target(names, LocalName(slot.value)))) else slot
  }

  function RewriteCell(c: Cell, names: map<string, string>): Cell {
    match c
    case ArrCell(_) => c
    case ObjCell(fields) => ObjCell(map key | key in fields :: RewriteSlot(key, fields[key], names))
  }

  lemma RewriteTwice(c: Cell, names: map<string, string>)
    ensures RewriteCell(RewriteCell(c, names), names) == RewriteCell(c, names)
  {
    if c.ObjCell? {
      forall key | key in c.fields ensures RewriteSlot(key, RewriteSlot(key, c.fields[key], names), names) == RewriteSlot(key, c.fields[key], names) {
        RefKinds(if c.fields[key].Plain? && IsLocal(c.fields[key].value) then Target(names, LocalName(c.fields[key].value)) else "");
      }
    }
  }

  /** `t` is `s` with the objects of `part` rewritten. */
  ghost predicate RewrittenOn(s: Store, t: Store, part: set<Ref>, names: map<string, string>) {
    t.Keys == s.Keys && forall q :: q in s ==> t[q] == if q in part then RewriteCell(s[q], names) else s[q]
  }

  /** Rewriting changes no reference between objects. */
  lemma SlotsRewritten(c: Cell, names: map<string, string>, slot: Slot)
    ensures slot in Slots(RewriteCell(c, names)) && slot.To? ==> slot in Slots(c)
    ensures slot in Slots(RewriteCell(c, names)) && slot.Plain? ==> slot.value.Str? || slot in Slots(c)
    ensures slot in Slots(c) && slot.To? ==> slot in Slots(RewriteCell(c, names))
  {
    if c.ObjCell? {
      if slot in Slots(RewriteCell(c, names)) {
        var key :| key in c.fields && RewriteSlot(key, c.fields[key], names) == slot;
        assert c.fields[key] in Slots(c);
      }
      if slot in Slots(c) {
        var key :| key in c.fields && c.fields[key] == slot;
        assert slot.To? ==> RewriteCell(c, names).fields[key] == slot;
      }
    }
  }

  lemma RewrittenWellFormed(s: Store, t: Store, part: set<Ref>, names: map<string, string>)
    requires WellFormed(s) && RewrittenOn(s, t, part, names)
    ensures WellFormed(t)
  {
    forall r, slot | r in t && slot in Slots(t[r]) ensures SlotIn(t, slot) && SlotBelow(slot, r) {
      SlotsRewritten(s[r], names, slot);
      assert slot in Slots(s[r]) ==> SlotIn(s, slot);
    }
  }

  lemma {:induction false} RewrittenReach(s: Store, t: Store, part: set<Ref>, names: map<string, string>, r: Ref)
    requires WellFormed(s) && WellFormed(t) && RewrittenOn(s, t, part, names) && r in s
    ensures Reach(t, r) == Reach(s, r)
    decreases r
  {
    forall slot: Slot | slot.To? ensures slot in Slots(t[r]) <==> slot in Slots(s[r]) { SlotsRewritten(s[r], names, slot); }
    forall slot | slot in Slots(s[r]) && slot.To? ensures Reach(t, slot.ref) == Reach(s, slot.ref) {
      RewrittenReach(s, t, part, names, slot.ref);
    }
    SameHolds(s, t, r);
  }

  ghost predicate ChildrenRewritten(s: Store, t: Store, names: map<string, string>, c: Cell)
    requires WellFormed(s) && WellFormed(t)
  {
    forall slot :: slot in Slots(c) && slot.To? ==>
      slot.ref in s && slot.ref in t && !IsLocal(TreeOf(s, slot.ref)) && TreeOf(t, slot.ref) == Rewrite(TreeOf(s, slot.ref), names)
  }

  lemma SlotTreeRewritten(s: Store, t: Store, names: map<string, string>, r: Ref, key: string, slot: Slot)
    requires WellFormed(s) && WellFormed(t) && r in s && r in t && slot in Slots(s[r]) && RewriteSlot(key, slot, names) in Slots(t[r])
    requires ChildrenRewritten(s, t, names, s[r])
    ensures var v := Child(s, r, slot);
      Child(t, r, RewriteSlot(key, slot, names)) == if key == REF && IsLocal(v) then Str(SHARED + Target(names, LocalName(v))) else Rewrite(v, names)
  {
  }

  lemma ObjRewritten(s: Store, t: Store, names: map<string, string>, r: Ref)
    requires WellFormed(s) && WellFormed(t) && r in s && r in t && s[r].ObjCell? && t[r] == RewriteCell(s[r], names)
    requires ChildrenRewritten(s, t, names, s[r])
    ensures TreeOf(t, r) == Rewrite(TreeOf(s, r), names)
  {
    var was, now, fields := TreeOf(s, r), TreeOf(t, r), s[r].fields;
    forall key | key in fields ensures now.fields[key] == RewriteFields(was, names)[key] {
      assert fields[key] in Slots(s[r]);
      assert t[r].fields[key] in Slots(t[r]);
      SlotTreeRewritten(s, t, names, r, key, fields[key]);
    }
    assert now.fields == RewriteFields(was, names);
  }

  lemma ArrRewritten(s: Store, t: Store, names: map<string, string>, r: Ref)
    requires WellFormed(s) && WellFormed(t) && r in s && r in t && s[r].ArrCell? && t[r] == s[r]
    requires ChildrenRewritten(s, t, names, s[r])
    ensures TreeOf(t, r) == Rewrite(TreeOf(s, r), names)
  {
    var items := s[r].items;
    forall i | 0 <= i < |items| ensures Child(t, r, items[i]) == Rewrite(Child(s, r, items[i]), names) { assert items[i] in Slots(s[r]); }
  }

  /** What lies in the rewritten part is rewritten as a whole. */
  lemma {:induction false} TreeRewritten(s: Store, t: Store, part: set<Ref>, names: map<string, string>, r: Ref)
    requires WellFormed(s) && WellFormed(t) && RewrittenOn(s, t, part, names) && r in s && Reach(s, r) <= part
    ensures TreeOf(t, r) == Rewrite(TreeOf(s, r), names)
    decreases r
  {
    forall slot | slot in Slots(s[r]) && slot.To? ensures TreeOf(t, slot.ref) == Rewrite(TreeOf(s, slot.ref), names) && !IsLocal(TreeOf(s, slot.ref)) {
      MemberReach(s, r, slot);
      TreeRewritten(s, t, part, names, slot.ref);
    }
    if s[r].ArrCell? { ArrRewritten(s, t, names, r); } else { ObjRewritten(s, t, names, r); }
  }
}
