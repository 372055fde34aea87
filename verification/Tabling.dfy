/** Taking the table out of an object: its entries become components, its references are
    rewritten, and the table goes. */
module Tabling {
  import opened Hoist
  import opened Objects
  import opened Walks

  lemma SlotRewritten(s: Store, t: Store, part: set<Ref>, names: map<string, string>, slot: Slot)
    requires WellFormed(s) && WellFormed(t) && RewrittenOn(s, t, part, names) && SlotIn(s, slot) && SlotReach(s, slot) <= part
    ensures SlotIn(t, slot) && SlotReach(t, slot) == SlotReach(s, slot) && DocOf(t, slot) == Rewrite(DocOf(s, slot), names)
  {
    if slot.To? {
      TreeRewritten(s, t, part, names, slot.ref);
      RewrittenReach(s, t, part, names, slot.ref);
    }
  }

  lemma SlotUntouched(s: Store, t: Store, part: set<Ref>, names: map<string, string>, slot: Slot)
    requires WellFormed(s) && WellFormed(t) && RewrittenOn(s, t, part, names) && SlotIn(s, slot) && SlotReach(s, slot) !! part
    ensures SlotIn(t, slot) && SlotReach(t, slot) == SlotReach(s, slot) && DocOf(t, slot) == DocOf(s, slot)
  {
    ReachKnown(s, slot);
    SameSlot(s, t, slot);
  }

  /** The entries of a table have become components; nothing else has. */
  ghost predicate EntriesOnly(d: Table, e: Table, entries: Table) {
    && (forall name :: name in d ==> name in e && e[name] == d[name])
    && (forall name :: name in e && name !in d ==> exists entry :: entry in entries && e[name] == entries[entry])
  }

  lemma ComponentRewritten(s: Store, t: Store, r: Ref, d: Table, e: Table, entries: Table, names: map<string, string>, name: string)
    requires WellFormed(s) && WellFormed(t) && r in s && RewrittenOn(s, t, Reach(s, r), names)
    requires TableIn(s, d) && TableIn(s, e) && Apart(s, d, To(r)) && EntriesOnly(d, e, entries)
    requires forall entry :: entry in entries ==> SlotIn(s, entries[entry]) && SlotReach(s, entries[entry]) <= Reach(s, r)
    requires name in e
    ensures SlotIn(t, e[name]) && SlotReach(t, e[name]) == SlotReach(s, e[name])
    ensures DocOf(t, e[name]) == if name in d then DocOf(s, e[name]) else Rewrite(DocOf(s, e[name]), names)
  {
    if name in d {
      assert e[name] == d[name];
      SlotUntouched(s, t, Reach(s, r), names, e[name]);
    } else {
      SlotRewritten(s, t, Reach(s, r), names, e[name]);
    }
  }

  /** Rewriting the object rewrites the components it holds, and no others. */
  lemma ComponentsRewritten(s: Store, t: Store, r: Ref, d: Table, e: Table, entries: Table, names: map<string, string>)
    requires WellFormed(s) && WellFormed(t) && r in s && RewrittenOn(s, t, Reach(s, r), names)
    requires TableIn(s, d) && TableIn(s, e) && Apart(s, d, To(r)) && EntriesOnly(d, e, entries)
    requires forall entry :: entry in entries ==> SlotIn(s, entries[entry]) && SlotReach(s, entries[entry]) <= Reach(s, r)
    ensures TableIn(t, e) && Abs(t, e) == Renamed(Abs(s, d), Abs(s, e), names)
    ensures forall name :: name in e ==> SlotReach(t, e[name]) == SlotReach(s, e[name])
  {
    forall name | name in e
      ensures SlotIn(t, e[name]) && SlotReach(t, e[name]) == SlotReach(s, e[name])
      ensures DocOf(t, e[name]) == if name in d then DocOf(s, e[name]) else Rewrite(DocOf(s, e[name]), names)
    {
      ComponentRewritten(s, t, r, d, e, entries, names, name);
    }
    AbsIsRenamed(s, t, d, e, names);
  }

  lemma AbsIsRenamed(s: Store, t: Store, d: Table, e: Table, names: map<string, string>)
    requires WellFormed(s) && WellFormed(t) && TableIn(s, d) && TableIn(s, e) && TableIn(t, e)
    requires forall name :: name in e ==> DocOf(t, e[name]) == if name in d then DocOf(s, e[name]) else Rewrite(DocOf(s, e[name]), names)
    ensures Abs(t, e) == Renamed(Abs(s, d), Abs(s, e), names)
  {
    var now, renamed := Abs(t, e), Renamed(Abs(s, d), Abs(s, e), names);
    assert forall name :: name in now <==> name in renamed;
    assert forall name :: name in now ==> now[name] == renamed[name];
  }

  /** The store without the table of object `r`. */
  function WithoutTable(s: Store, r: Ref): Store
    requires r in s && s[r].ObjCell?
  {
    s[r := ObjCell(s[r].fields - {TABLE})]
  }

  lemma StillWellFormed(s: Store, r: Ref)
    requires WellFormed(s) && r in s && s[r].ObjCell?
    ensures WellFormed(WithoutTable(s, r))
  {
    var t := WithoutTable(s, r);
    forall q, slot {:trigger slot in Slots(t[q])} | q in t && slot in Slots(t[q]) ensures SlotIn(t, slot) && SlotBelow(slot, q) {
      if q == r { KeepsMember(s, r, slot); }
      assert slot in Slots(s[q]);
    }
  }

  lemma KeepsMember(s: Store, r: Ref, slot: Slot)
    requires r in s && s[r].ObjCell? && slot in Slots(WithoutTable(s, r)[r])
    ensures exists key :: key in s[r].fields && key != TABLE && s[r].fields[key] == slot
    ensures slot in Slots(s[r])
  {
    var less := s[r].fields - {TABLE};
    var key :| key in less && less[key] == slot;
    assert s[r].fields[key] == slot;
  }

  lemma ElsewhereSame(s: Store, r: Ref, slot: Slot)
    requires WellFormed(s) && r in s && s[r].ObjCell? && WellFormed(WithoutTable(s, r)) && SlotIn(s, slot) && r !in SlotReach(s, slot)
    ensures var t := WithoutTable(s, r); SlotIn(t, slot) && DocOf(t, slot) == DocOf(s, slot) && SlotReach(t, slot) == SlotReach(s, slot)
  {
    ReachKnown(s, slot);
    SameSlot(s, WithoutTable(s, r), slot);
  }

  /** What is left of the object once its table is gone. */
  lemma ObjectLeft(s: Store, r: Ref)
    requires WellFormed(s) && r in s && s[r].ObjCell? && WellFormed(WithoutTable(s, r))
    ensures var t, was := WithoutTable(s, r), TreeOf(s, r);
      TreeOf(t, r).Obj? && TreeOf(t, r).fields == map key | key in was.fields && key != TABLE :: was.fields[key]
  {
    var t := WithoutTable(s, r);
    forall key | key in t[r].fields ensures Child(t, r, t[r].fields[key]) == Child(s, r, s[r].fields[key]) {
      assert s[r].fields[key] in Slots(s[r]) && t[r].fields[key] in Slots(t[r]);
      MemberReach(s, r, s[r].fields[key]);
      ElsewhereSame(s, r, s[r].fields[key]);
    }
  }

  lemma ReachLeft(s: Store, r: Ref)
    requires WellFormed(s) && r in s && s[r].ObjCell? && WellFormed(WithoutTable(s, r))
    ensures Reach(WithoutTable(s, r), r) <= Reach(s, r)
    ensures forall q :: q in Reach(WithoutTable(s, r), r) && q != r ==>
      exists key :: key in s[r].fields && key != TABLE && SlotIn(s, s[r].fields[key]) && q in SlotReach(s, s[r].fields[key])
  {
    var t := WithoutTable(s, r);
    forall slot, q | slot in Slots(t[r]) && slot.To? && slot.ref < r && slot.ref in t && q in Reach(t, slot.ref)
      ensures q in Reach(s, r) && exists key :: key in s[r].fields && key != TABLE && SlotIn(s, s[r].fields[key]) && q in SlotReach(s, s[r].fields[key])
    {
      KeepsMember(s, r, slot);
      MemberReach(s, r, slot);
      ElsewhereSame(s, r, slot);
      var key :| key in s[r].fields && key != TABLE && s[r].fields[key] == slot;
      assert q in SlotReach(s, s[r].fields[key]);
    }
  }

  /** The table shares nothing with the other members, before the walk or after. */
  ghost predicate TableApart(t: Store, r: Ref)
    requires WellFormed(t) && r in t && t[r].ObjCell? && TABLE in t[r].fields && SlotIn(t, t[r].fields[TABLE])
  {
    forall key :: key in t[r].fields && key != TABLE && SlotIn(t, t[r].fields[key]) ==>
      SlotReach(t, t[r].fields[key]) !! SlotReach(t, t[r].fields[TABLE])
  }

  lemma TableStaysApart(s: Store, t: Store, d: Table, r: Ref, ks: seq<string>, part: set<Ref>, names: set<string>)
    requires WellFormed(s) && WellFormed(t) && TableIn(t, d) && r in s && s[r].ObjCell? && r in t && t[r] == s[r]
    requires KeysOnce(s[r].fields, ks) && MembersApart(s, s[r]) && TABLE in s[r].fields && SlotIn(t, t[r].fields[TABLE])
    requires forall i :: 0 <= i < |ks| ==> SlotIn(s, s[r].fields[ks[i]]) && SlotWalked(s, t, d, s[r].fields[ks[i]], part, names)
    ensures TableApart(t, r)
  {
    var fields := s[r].fields;
    var j :| 0 <= j < |ks| && ks[j] == TABLE;
    forall key | key in fields && key != TABLE ensures SlotReach(t, fields[key]) !! SlotReach(t, fields[TABLE]) {
      var i :| 0 <= i < |ks| && ks[i] == key;
      assert SlotWalked(s, t, d, fields[ks[i]], part, names) && SlotWalked(s, t, d, fields[ks[j]], part, names);
    }
  }

  /** What the table's entries are made of belongs to the table alone. */
  lemma EntriesWithin(t: Store, r: Ref, table: Ref)
    requires WellFormed(t) && r in t && t[r].ObjCell? && TABLE in t[r].fields && t[r].fields[TABLE] == To(table)
    requires table in t && t[table].ObjCell?
    ensures forall entry :: entry in t[table].fields ==>
      SlotIn(t, t[table].fields[entry]) && SlotReach(t, t[table].fields[entry]) <= Reach(t, table)
    ensures Reach(t, table) <= Reach(t, r) && r !in Reach(t, table)
  {
    assert To(table) in Slots(t[r]);
    MemberReach(t, r, To(table));
    forall entry | entry in t[table].fields ensures SlotIn(t, t[table].fields[entry]) && SlotReach(t, t[table].fields[entry]) <= Reach(t, table) {
      assert t[table].fields[entry] in Slots(t[table]);
      MemberReach(t, table, t[table].fields[entry]);
    }
  }

  /** A step of the pass over one object with a table, all members walked: `e` is the
      component table after allocation, `u` the store after rewriting. */
  ghost predicate Renames(t: Store, d: Table, e: Table, u: Store, r: Ref, table: Ref, m: map<string, string>) {
    && WellFormed(t) && r in t && t[r].ObjCell? && TABLE in t[r].fields && t[r].fields[TABLE] == To(table)
    && table in t && t[table].ObjCell?
    && TableIn(t, d) && TableIn(t, e) && Apart(t, d, To(r)) && TableApart(t, r)
    && EntriesOnly(d, e, t[table].fields)
    && Allocated(Abs(t, d), Abs(t, e), TreeOf(t, table).fields, m)
    && WellFormed(u) && RewrittenOn(t, u, Reach(t, r), m)
  }

  lemma AwayFromNode(t: Store, d: Table, e: Table, r: Ref, table: Ref, name: string)
    requires WellFormed(t) && r in t && table in t && t[table].ObjCell? && Reach(t, table) <= Reach(t, r) && r !in Reach(t, table)
    requires forall entry :: entry in t[table].fields ==> SlotIn(t, t[table].fields[entry]) && SlotReach(t, t[table].fields[entry]) <= Reach(t, table)
    requires TableIn(t, d) && TableIn(t, e) && Apart(t, d, To(r)) && EntriesOnly(d, e, t[table].fields) && name in e
    ensures r !in SlotReach(t, e[name])
    ensures name in d ==> SlotReach(t, e[name]) !! Reach(t, r)
    ensures name !in d ==> SlotReach(t, e[name]) <= Reach(t, table)
  {
    if name in d { assert e[name] == d[name]; }
  }

  lemma AbsLeft(u: Store, r: Ref, e: Table)
    requires WellFormed(u) && r in u && u[r].ObjCell? && TableIn(u, e) && forall name :: name in e ==> r !in SlotReach(u, e[name])
    ensures WellFormed(WithoutTable(u, r)) && TableIn(WithoutTable(u, r), e)
    ensures Abs(WithoutTable(u, r), e) == Abs(u, e)
    ensures forall name :: name in e ==> SlotReach(WithoutTable(u, r), e[name]) == SlotReach(u, e[name])
  {
    StillWellFormed(u, r);
    var v := WithoutTable(u, r);
    forall name | name in e
      ensures SlotIn(v, e[name]) && DocOf(v, e[name]) == DocOf(u, e[name]) && SlotReach(v, e[name]) == SlotReach(u, e[name])
    {
      ElsewhereSame(u, r, e[name]);
    }
    assert Abs(v, e) == Abs(u, e);
  }

  /** The components after the step are those of the step on documents. */
  lemma ComponentsAfter(t: Store, d: Table, e: Table, u: Store, r: Ref, table: Ref, m: map<string, string>)
    requires Renames(t, d, e, u, r, table, m)
    ensures u[r].ObjCell? && WellFormed(WithoutTable(u, r)) && TableIn(WithoutTable(u, r), e)
    ensures Abs(WithoutTable(u, r), e) == Renamed(Abs(t, d), Abs(t, e), m)
    ensures forall name :: name in e ==> SlotReach(WithoutTable(u, r), e[name]) == SlotReach(t, e[name])
  {
    EntriesWithin(t, r, table);
    ComponentsRewritten(t, u, r, d, e, t[table].fields, m);
    forall name | name in e ensures r !in SlotReach(u, e[name]) { AwayFromNode(t, d, e, r, table, name); }
    AbsLeft(u, r, e);
  }

  lemma TableTree(t: Store, r: Ref, table: Ref)
    requires WellFormed(t) && r in t && t[r].ObjCell? && TABLE in t[r].fields && t[r].fields[TABLE] == To(table)
    requires table in t && t[table].ObjCell?
    ensures HasTable(TreeOf(t, r).fields) && Entries(TreeOf(t, r).fields) == TreeOf(t, table).fields
  {
    assert To(table) in Slots(t[r]);
    assert TreeOf(t, r).fields[TABLE] == Child(t, r, To(table)) == TreeOf(t, table);
  }

  /** And so is the object. */
  lemma ObjectAfter(t: Store, u: Store, r: Ref, table: Ref, m: map<string, string>)
    requires WellFormed(t) && r in t && t[r].ObjCell? && TABLE in t[r].fields && t[r].fields[TABLE] == To(table)
    requires table in t && t[table].ObjCell? && WellFormed(u) && RewrittenOn(t, u, Reach(t, r), m)
    requires u[r].ObjCell? && WellFormed(WithoutTable(u, r))
    ensures TreeOf(WithoutTable(u, r), r) == Obj(Outside(TreeOf(t, r).fields, m))
  {
    TreeRewritten(t, u, Reach(t, r), m, r);
    TableTree(t, r, table);
    ObjectLeft(u, r);
    LeftIsOutside(TreeOf(t, r).fields, m, TreeOf(WithoutTable(u, r), r).fields);
  }

  lemma LeftIsOutside(done: map<string, Json>, m: map<string, string>, left: map<string, Json>)
    requires HasTable(done)
    requires var was := RewriteFields(Obj(done), m); left == map key | key in was && key != TABLE :: was[key]
    ensures left == Outside(done, m)
  {
  }

  /** The components stay apart from what is left of the object. */
  lemma ApartAfter(t: Store, d: Table, e: Table, u: Store, r: Ref, table: Ref, m: map<string, string>)
    requires Renames(t, d, e, u, r, table, m)
    ensures u[r].ObjCell? && WellFormed(WithoutTable(u, r)) && TableIn(WithoutTable(u, r), e)
    ensures Reach(WithoutTable(u, r), r) <= Reach(t, r) && Apart(WithoutTable(u, r), e, To(r))
  {
    ComponentsAfter(t, d, e, u, r, table, m);
    RewrittenReach(t, u, Reach(t, r), m, r);
    ReachLeft(u, r);
    EntriesWithin(t, r, table);
    var v := WithoutTable(u, r);
    forall name, q | name in e && q in Reach(v, r) ensures q !in SlotReach(v, e[name]) {
      AwayFromNode(t, d, e, r, table, name);
      if q != r && name !in d {
        var key :| key in u[r].fields && key != TABLE && SlotIn(u, u[r].fields[key]) && q in SlotReach(u, u[r].fields[key]);
        OtherMember(t, u, r, table, m, key, q);
      }
    }
  }

  lemma OtherMember(t: Store, u: Store, r: Ref, table: Ref, m: map<string, string>, key: string, q: Ref)
    requires WellFormed(t) && WellFormed(u) && r in t && t[r].ObjCell? && TABLE in t[r].fields && t[r].fields[TABLE] == To(table) && table in t
    requires TableApart(t, r) && RewrittenOn(t, u, Reach(t, r), m)
    requires u[r].ObjCell? && key in u[r].fields && key != TABLE && SlotIn(u, u[r].fields[key]) && q in SlotReach(u, u[r].fields[key])
    ensures q !in Reach(t, table)
  {
    assert u[r].fields[key] == RewriteSlot(key, t[r].fields[key], m);
    assert t[r].fields[key] in Slots(t[r]);
    RewrittenReach(t, u, Reach(t, r), m, u[r].fields[key].ref);
  }

  lemma TableSettled(t: Store, d: Table, e: Table, u: Store, r: Ref, table: Ref, m: map<string, string>, inner: set<string>)
    requires Renames(t, d, e, u, r, table, m) && AllClean(Abs(t, d)) && TableWalked(TreeOf(t, table).fields, inner)
    ensures u[r].ObjCell? && WellFormed(WithoutTable(u, r)) && TableIn(WithoutTable(u, r), e)
    ensures var now := Abs(WithoutTable(u, r), e);
      AllClean(now) && Settled(TreeOf(t, table).fields, m, now) && Extends(Abs(t, d), now) && now == Renamed(Abs(t, d), Abs(t, e), m)
  {
    ComponentsAfter(t, d, e, u, r, table, m);
    ComponentsRight(Abs(t, d), Abs(t, e), TreeOf(t, table).fields, inner, m);
  }

  lemma TableMoved(s: Store, c: Table, t: Store, d: Table, e: Table, u: Store, r: Ref, table: Ref, m: map<string, string>)
    requires WellFormed(s) && r in s && Moved(s, c, t, d, Reach(s, r)) && Renames(t, d, e, u, r, table, m)
    requires Reach(t, r) <= Reach(s, r) && u[r].ObjCell?
    requires WellFormed(WithoutTable(u, r)) && TableIn(WithoutTable(u, r), e) && AllClean(Abs(WithoutTable(u, r), e))
    ensures Moved(s, c, WithoutTable(u, r), e, Reach(s, r))
  {
    ComponentsAfter(t, d, e, u, r, table, m);
    EntriesWithin(t, r, table);
    AddedAfter(s, c, t, d, e, WithoutTable(u, r), r, table);
    FrameAfter(s, t, u, r, Reach(s, r), Reach(t, r));
  }

  lemma FrameAfter(s: Store, t: Store, u: Store, r: Ref, part: set<Ref>, own: set<Ref>)
    requires r in part && own <= part && Frame(s, t, part) && r in t
    requires u.Keys == t.Keys && (forall q :: q in t && q !in own ==> u[q] == t[q]) && u[r].ObjCell?
    ensures Frame(s, WithoutTable(u, r), part)
  {
  }

  lemma AddedAfter(s: Store, c: Table, t: Store, d: Table, e: Table, v: Store, r: Ref, table: Ref)
    requires WellFormed(s) && r in s && WellFormed(t) && TableIn(t, d) && Added(s, c, t, d, Reach(s, r))
    requires r in t && table in t && t[table].ObjCell? && Reach(t, table) <= Reach(t, r) <= Reach(s, r)
    requires EntriesOnly(d, e, t[table].fields) && TableIn(t, e) && WellFormed(v) && TableIn(v, e)
    requires forall name :: name in e ==> SlotReach(v, e[name]) == SlotReach(t, e[name])
    requires forall entry :: entry in t[table].fields ==> SlotIn(t, t[table].fields[entry]) && SlotReach(t, t[table].fields[entry]) <= Reach(t, table)
    ensures Added(s, c, v, e, Reach(s, r))
  {
    forall name | name in e && name !in c ensures SlotReach(v, e[name]) <= Reach(s, r) {
      if name in d { assert e[name] == d[name]; }
    }
  }

  lemma TableSlotWalked(s: Store, t: Store, d: Table, e: Table, u: Store, r: Ref, table: Ref, m: map<string, string>, names: set<string>)
    requires WellFormed(s) && r in s && s[r].ObjCell? && HasTable(TreeOf(s, r).fields) && Renames(t, d, e, u, r, table, m)
    requires var entries := Entries(TreeOf(s, r).fields); !HasTable(entries) && !(REF in entries && entries[REF].Str?)
    requires t[r] == s[r] && Reach(t, r) <= Reach(s, r) && u[r].ObjCell?
    requires WellFormed(WithoutTable(u, r)) && TableIn(WithoutTable(u, r), e)
    requires var now := Abs(WithoutTable(u, r), e); Extends(Abs(t, d), now) && Settled(TreeOf(t, table).fields, m, now)
    requires MembersReady(TreeOf(s, r).fields, TreeOf(t, r).fields, Entries(TreeOf(s, r).fields).Keys, Abs(t, d))
    ensures SlotWalked(s, WithoutTable(u, r), e, To(r), Reach(s, r), names)
  {
    TableTree(t, r, table);
    ObjectAfter(t, u, r, table, m);
    ObjectRight(TreeOf(s, r).fields, TreeOf(t, r).fields, Abs(t, d), m, Abs(WithoutTable(u, r), e));
    ApartAfter(t, d, e, u, r, table, m);
    WiderNames(TreeOf(WithoutTable(u, r), r), {}, names);
  }

  /** The pass over an object with a table, from before its members were walked. */
  lemma TableObjWalked(s: Store, c: Table, t: Store, d: Table, e: Table, u: Store, r: Ref, table: Ref, m: map<string, string>, names: set<string>)
    requires WellFormed(s) && r in s && s[r].ObjCell? && HasTable(TreeOf(s, r).fields)
    requires var entries := Entries(TreeOf(s, r).fields); !HasTable(entries) && !(REF in entries && entries[REF].Str?)
    requires Moved(s, c, t, d, Reach(s, r)) && Renames(t, d, e, u, r, table, m) && t[r] == s[r] && Reach(t, r) <= Reach(s, r)
    requires MembersReady(TreeOf(s, r).fields, TreeOf(t, r).fields, Entries(TreeOf(s, r).fields).Keys, Abs(t, d))
    ensures u[r].ObjCell? && WalkedOne(s, c, WithoutTable(u, r), e, To(r), names)
  {
    TableTree(t, r, table);
    WalkedTable(TreeOf(s, r).fields, TreeOf(t, r).fields, Entries(TreeOf(s, r).fields).Keys, Abs(t, d));
    TableSettled(t, d, e, u, r, table, m, Entries(TreeOf(s, r).fields).Keys);
    TableMoved(s, c, t, d, e, u, r, table, m);
    TableSlotWalked(s, t, d, e, u, r, table, m, names);
  }
}
