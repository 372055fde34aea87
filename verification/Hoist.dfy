/** Moving every local `definitions` table of a document into the shared component table. */
module Hoist {
  const LOCAL := "#/definitions/"
  const SHARED := "#/components/schemas/"
  const REF := "$ref"
  const TABLE := "definitions"

  /** Two objects are equal when they have the same members in any order, which is what
      comparing their key-sorted dumps comes to. */
  datatype Json =
    | Atom(token: string)
    | Str(text: string)
    | Arr(items: seq<Json>)
    | Obj(fields: map<string, Json>)

  type Components = map<string, Json>

  predicate IsLocal(j: Json) {
    j.Str? && LOCAL <= j.text
  }

  predicate IsShared(j: Json) {
    j.Str? && SHARED <= j.text
  }

  function LocalName(j: Json): string
    requires IsLocal(j)
  {
    j.text[|LOCAL|..]
  }

  function SharedName(j: Json): string
    requires IsShared(j)
  {
    j.text[|SHARED|..]
  }

  lemma RefKinds(name: string)
    ensures IsShared(Str(SHARED + name)) && !IsLocal(Str(SHARED + name)) && SharedName(Str(SHARED + name)) == name
    ensures forall j :: IsShared(j) ==> !IsLocal(j)
  {
    assert LOCAL[2] == 'd' && SHARED[2] == 'c';
  }

  predicate HasTable(fields: map<string, Json>) {
    TABLE in fields && fields[TABLE].Obj?
  }

  function Entries(fields: map<string, Json>): map<string, Json>
    requires HasTable(fields)
  {
    fields[TABLE].fields
  }

  /** The names in force inside an object: its own table, or else the enclosing one. */
  function ScopeOf(fields: map<string, Json>, scope: map<string, Json>): map<string, Json> {
    if HasTable(fields) then Entries(fields) else scope
  }

  predicate IsTable(fields: map<string, Json>, key: string) {
    key == TABLE && HasTable(fields)
  }

  // ----- meaning ------------------------------------------------------------

  /** A schema with its references followed; `Cut` is where the depth ran out. */
  datatype Tree =
    | Leaf(value: Json)
    | List(elements: seq<Tree>)
    | Node(members: map<string, Tree>)
    | Dangling
    | Cut

  /** `j` read in `scope`, references followed at most `n` deep. Tables are no part of what
      is described. */
  function Unfold(n: nat, j: Json, scope: map<string, Json>, shared: Components): Tree
    decreases n, j, 0
  {
    match j
    case Obj(fields) =>
      Node(map key | key in fields && !IsTable(fields, key) ::
        UnfoldMember(n, key, fields[key], ScopeOf(fields, scope), shared))
    case Arr(items) => List(seq(|items|, i requires 0 <= i < |items| => Unfold(n, items[i], scope, shared)))
    case _ => Leaf(j)
  }

  function UnfoldMember(n: nat, key: string, v: Json, scope: map<string, Json>, shared: Components): Tree
    decreases n, v, 1
  {
    if key == REF && IsLocal(v) then
      (if LocalName(v) !in scope then Dangling
       else if n == 0 then Cut
       else Unfold(n - 1, scope[LocalName(v)], scope, shared))
    else if key == REF && IsShared(v) then
      (if SharedName(v) !in shared then Dangling
       else if n == 0 then Cut
       else Unfold(n - 1, shared[SharedName(v)], map[], shared))
    else Unfold(n, v, scope, shared)
  }

  /** Every reference has its target: a local one in the nearest table around it, a shared
      one among `shared`. No entry of a table is itself named or shaped like a table or a
      reference. */
  predicate Resolved(j: Json, names: set<string>, shared: set<string>) {
    match j
    case Obj(fields) =>
      var inner := if HasTable(fields) then Entries(fields).Keys else names;
      && (forall key :: key in fields && key == REF && IsLocal(fields[key]) ==> LocalName(fields[key]) in inner)
      && (forall key :: key in fields && key == REF && IsShared(fields[key]) ==> SharedName(fields[key]) in shared)
      && (HasTable(fields) ==> !HasTable(Entries(fields)) && !(REF in Entries(fields) && Entries(fields)[REF].Str?))
      && (forall key :: key in fields ==> Resolved(fields[key], inner, shared))
    case Arr(items) => forall i :: 0 <= i < |items| ==> Resolved(items[i], names, shared)
    case _ => true
  }

  /** No table is left, and what local references are left use `names`. */
  predicate Open(j: Json, names: set<string>) {
    match j
    case Obj(fields) =>
      && !HasTable(fields)
      && (forall key :: key in fields && key == REF && IsLocal(fields[key]) ==> LocalName(fields[key]) in names)
      && (forall key :: key in fields ==> Open(fields[key], names))
    case Arr(items) => forall i :: 0 <= i < |items| ==> Open(items[i], names)
    case _ => true
  }

  predicate Clean(j: Json) {
    Open(j, {})
  }

  ghost predicate AllClean(c: Components) {
    forall name :: name in c ==> Clean(c[name])
  }

  ghost predicate Extends(c: Components, d: Components) {
    forall name :: name in c ==> name in d && d[name] == c[name]
  }

  // ----- rewriting references -------------------------------------------------

  function Target(names: map<string, string>, name: string): string {
    if name in names then names[name] else name
  }

  function Rewrite(j: Json, names: map<string, string>): Json
    decreases j, 1
  {
    match j
    case Obj(fields) => Obj(RewriteFields(j, names))
    case Arr(items) => Arr(seq(|items|, i requires 0 <= i < |items| => Rewrite(items[i], names)))
    case _ => j
  }

  function RewriteFields(j: Json, names: map<string, string>): map<string, Json>
    requires j.Obj?
    decreases j, 0
  {
    map key | key in j.fields ::
      if key == REF && IsLocal(j.fields[key]) then Str(SHARED + Target(names, LocalName(j.fields[key])))
      else Rewrite(j.fields[key], names)
  }

  lemma {:induction false} RewriteCleans(j: Json, outer: set<string>, names: map<string, string>)
    requires Open(j, outer)
    ensures Clean(Rewrite(j, names))
  {
    match j
    case Obj(fields) =>
      forall key | key in fields
        ensures Clean(RewriteFields(j, names)[key]) && (key == REF ==> !IsLocal(RewriteFields(j, names)[key]))
      {
        RefKinds(if IsLocal(fields[key]) then Target(names, LocalName(fields[key])) else "");
        RewriteCleans(fields[key], outer, names);
      }
      assert !HasTable(RewriteFields(j, names));
    case Arr(items) =>
      forall i | 0 <= i < |items| ensures Clean(Rewrite(items[i], names)) { RewriteCleans(items[i], outer, names); }
    case _ =>
  }

  lemma {:induction false} CleanStays(j: Json, names: map<string, string>)
    requires Clean(j)
    ensures Rewrite(j, names) == j
  {
    match j
    case Obj(fields) =>
      forall key | key in fields ensures RewriteFields(j, names)[key] == fields[key] { CleanStays(fields[key], names); }
      assert RewriteFields(j, names) == fields;
    case Arr(items) =>
      forall i | 0 <= i < |items| ensures Rewrite(items[i], names) == items[i] { CleanStays(items[i], names); }
    case _ =>
  }

  // ----- what a hoisted document looks like -------------------------------------

  /** `k` is `j` with each table moved into `shared` under some renaming, and every local
      reference following the renaming of the table it belongs to; `names` is the renaming
      of the table around `j`. */
  ghost predicate Hoisted(j: Json, names: map<string, string>, k: Json, shared: Components)
    decreases j, 1
  {
    match j
    case Obj(fields) =>
      && k.Obj?
      && (if HasTable(fields) then
            exists inner :: TableHoisted(j, inner, shared) && FieldsHoisted(j, inner, k.fields, shared)
          else FieldsHoisted(j, names, k.fields, shared))
    case Arr(items) =>
      k.Arr? && |k.items| == |items| && forall i :: 0 <= i < |items| ==> Hoisted(items[i], names, k.items[i], shared)
    case _ => k == j
  }

  ghost predicate TableHoisted(j: Json, inner: map<string, string>, shared: Components)
    requires j.Obj? && HasTable(j.fields)
    decreases j, 0
  {
    && inner.Keys == Entries(j.fields).Keys
    && forall name :: name in Entries(j.fields) ==>
         inner[name] in shared && Hoisted(Entries(j.fields)[name], inner, shared[inner[name]], shared)
  }

  ghost predicate FieldsHoisted(j: Json, names: map<string, string>, out: map<string, Json>, shared: Components)
    requires j.Obj?
    decreases j, 0
  {
    && (forall key :: key in out <==> key in j.fields && !IsTable(j.fields, key))
    && forall key :: key in out ==>
         if key == REF && IsLocal(j.fields[key]) then out[key] == Str(SHARED + Target(names, LocalName(j.fields[key])))
         else Hoisted(j.fields[key], names, out[key], shared)
  }

  lemma {:induction false} StaysHoisted(j: Json, names: map<string, string>, k: Json, c: Components, d: Components)
    requires Hoisted(j, names, k, c) && Extends(c, d)
    ensures Hoisted(j, names, k, d)
    decreases j
  {
    match j
    case Obj(fields) =>
      if HasTable(fields) {
        var inner :| TableHoisted(j, inner, c) && FieldsHoisted(j, inner, k.fields, c);
        var entries := fields[TABLE];
        forall name | name in entries.fields ensures Hoisted(entries.fields[name], inner, d[inner[name]], d) {
          StaysHoisted(entries.fields[name], inner, c[inner[name]], c, d);
        }
        FieldsStay(j, inner, k.fields, c, d);
        assert TableHoisted(j, inner, d);
      } else {
        FieldsStay(j, names, k.fields, c, d);
      }
    case Arr(items) =>
      forall i | 0 <= i < |items| ensures Hoisted(items[i], names, k.items[i], d) { StaysHoisted(items[i], names, k.items[i], c, d); }
    case _ =>
  }

  lemma {:induction false} FieldsStay(j: Json, names: map<string, string>, out: map<string, Json>, c: Components, d: Components)
    requires j.Obj? && FieldsHoisted(j, names, out, c) && Extends(c, d)
    ensures FieldsHoisted(j, names, out, d)
    decreases j, 0
  {
    forall key | key in out && !(key == REF && IsLocal(j.fields[key])) ensures Hoisted(j.fields[key], names, out[key], d) {
      StaysHoisted(j.fields[key], names, out[key], c, d);
    }
  }

  lemma {:induction false} CleanIsHoisted(j: Json, names: map<string, string>, shared: Components)
    requires Clean(j)
    ensures Hoisted(j, names, j, shared)
  {
    match j
    case Obj(fields) =>
      forall key | key in fields ensures Hoisted(fields[key], names, fields[key], shared) { CleanIsHoisted(fields[key], names, shared); }
    case Arr(items) =>
      forall i | 0 <= i < |items| ensures Hoisted(items[i], names, items[i], shared) { CleanIsHoisted(items[i], names, shared); }
    case _ =>
  }

  // ----- hoisting preserves meaning -----------------------------------------------

  ghost predicate ScopeHoisted(scope: map<string, Json>, names: map<string, string>, before: Components, after: Components) {
    forall name :: name in scope ==>
      && name in names && names[name] in after
      && Hoisted(scope[name], names, after[names[name]], after)
      && Resolved(scope[name], scope.Keys, before.Keys)
  }

  /** Shared schemas use neither tables nor local references, and refer to each other only. */
  ghost predicate Closed(c: Components) {
    AllClean(c) && forall name :: name in c ==> Resolved(c[name], {}, c.Keys)
  }

  lemma {:induction false} MeaningKept(n: nat, j: Json, scope: map<string, Json>, names: map<string, string>, k: Json, before: Components, after: Components)
    requires Hoisted(j, names, k, after) && Resolved(j, scope.Keys, before.Keys)
    requires ScopeHoisted(scope, names, before, after) && Closed(before) && Extends(before, after)
    ensures Unfold(n, j, scope, before) == Unfold(n, k, map[], after)
    decreases n, j, 1
  {
    match j
    case Obj(fields) =>
      if HasTable(fields) {
        var inner :| TableHoisted(j, inner, after) && FieldsHoisted(j, inner, k.fields, after);
        var entries := fields[TABLE];
        assert Resolved(entries, entries.fields.Keys, before.Keys);
        FieldsKeepMeaning(n, j, entries.fields, inner, k.fields, before, after);
        SameNode(n, j, scope, inner, k.fields, before, after);
      } else {
        FieldsKeepMeaning(n, j, scope, names, k.fields, before, after);
        SameNode(n, j, scope, names, k.fields, before, after);
      }
    case Arr(items) =>
      forall i | 0 <= i < |items| ensures Unfold(n, items[i], scope, before) == Unfold(n, k.items[i], map[], after) {
        MeaningKept(n, items[i], scope, names, k.items[i], before, after);
      }
    case _ =>
  }

  ghost predicate MembersResolved(fields: map<string, Json>, names: set<string>, shared: set<string>) {
    && (forall key :: key in fields ==> Resolved(fields[key], names, shared))
    && (forall key :: key in fields && key == REF && IsLocal(fields[key]) ==> LocalName(fields[key]) in names)
    && (forall key :: key in fields && key == REF && IsShared(fields[key]) ==> SharedName(fields[key]) in shared)
  }

  lemma {:induction false} FieldsKeepMeaning(n: nat, j: Json, scope: map<string, Json>, names: map<string, string>, out: map<string, Json>, before: Components, after: Components)
    requires j.Obj? && FieldsHoisted(j, names, out, after)
    requires MembersResolved(j.fields, scope.Keys, before.Keys)
    requires ScopeHoisted(scope, names, before, after) && Closed(before) && Extends(before, after)
    ensures forall key :: key in out ==>
      key in j.fields && UnfoldMember(n, key, j.fields[key], scope, before) == UnfoldMember(n, key, out[key], map[], after)
    decreases n, j, 0
  {
    forall key | key in out
      ensures key in j.fields && UnfoldMember(n, key, j.fields[key], scope, before) == UnfoldMember(n, key, out[key], map[], after)
    {
      MemberKeepsMeaning(n, key, j.fields[key], scope, names, out[key], before, after);
    }
  }

  /** The same members, unfolded the same. */
  lemma SameNode(n: nat, j: Json, scope: map<string, Json>, names: map<string, string>, out: map<string, Json>, before: Components, after: Components)
    requires j.Obj? && FieldsHoisted(j, names, out, after)
    requires forall key :: key in out ==>
      key in j.fields && UnfoldMember(n, key, j.fields[key], ScopeOf(j.fields, scope), before) == UnfoldMember(n, key, out[key], map[], after)
    ensures Unfold(n, j, scope, before) == Unfold(n, Obj(out), map[], after)
  {
    assert !HasTable(out);
    var was, now := Unfold(n, j, scope, before), Unfold(n, Obj(out), map[], after);
    assert was.members == now.members;
  }

  lemma {:induction false} MemberKeepsMeaning(n: nat, key: string, v: Json, scope: map<string, Json>, names: map<string, string>, w: Json, before: Components, after: Components)
    requires if key == REF && IsLocal(v) then w == Str(SHARED + Target(names, LocalName(v))) && LocalName(v) in scope else Hoisted(v, names, w, after)
    requires key == REF && IsShared(v) ==> SharedName(v) in before
    requires Resolved(v, scope.Keys, before.Keys)
    requires ScopeHoisted(scope, names, before, after) && Closed(before) && Extends(before, after)
    ensures UnfoldMember(n, key, v, scope, before) == UnfoldMember(n, key, w, map[], after)
    decreases n, v, 2
  {
    if key == REF && IsLocal(v) {
      var target := names[LocalName(v)];
      RefKinds(target);
      if n > 0 { MeaningKept(n - 1, scope[LocalName(v)], scope, names, after[target], before, after); }
    } else if key == REF && IsShared(v) {
      RefKinds(SharedName(v));
      var there := before[SharedName(v)];
      var none: map<string, Json> := map[];
      assert none.Keys == {};
      CleanIsHoisted(there, map[], after);
      if n > 0 { MeaningKept(n - 1, there, none, map[], there, before, after); }
    } else {
      if v.Obj? || v.Arr? { } else { assert w == v; }
      MeaningKept(n, v, scope, names, w, before, after);
    }
  }

  // ----- naming components ----------------------------------------------------------

  const DIGITS := "0123456789"

  function Decimal(n: nat): (s: string)
    ensures s != []
  {
    if n < 10 then [DIGITS[n]] else Decimal(n / 10) + [DIGITS[n % 10]]
  }

  lemma {:induction false} DecimalInjective(m: nat, n: nat)
    requires Decimal(m) == Decimal(n)
    ensures m == n
  {
    var a, b := Decimal(m), Decimal(n);
    assert a[|a| - 1] == b[|b| - 1];
    assert forall i, j :: 0 <= i < j < 10 ==> DIGITS[i] != DIGITS[j];
    if m >= 10 && n >= 10 {
      assert a[..|a| - 1] == Decimal(m / 10) && b[..|b| - 1] == Decimal(n / 10);
      DecimalInjective(m / 10, n / 10);
    }
  }

  function Digit(c: char): nat {
    if c == '1' then 1 else if c == '2' then 2 else if c == '3' then 3 else if c == '4' then 4 else if c == '5' then 5
    else if c == '6' then 6 else if c == '7' then 7 else if c == '8' then 8 else if c == '9' then 9 else 0
  }

  function Numeral(s: string): nat {
    if s == "" then 0 else 10 * Numeral(s[..|s| - 1]) + Digit(s[|s| - 1])
  }

  /** The suffix is the number in decimal, without a leading zero. */
  lemma {:induction false} DecimalReadsBack(n: nat)
    ensures Numeral(Decimal(n)) == n && (n > 0 ==> Decimal(n)[0] != '0')
  {
    if n < 10 {
      assert [DIGITS[n]][..0] == "";
      assert Numeral("") == 0;
    } else {
      DecimalReadsBack(n / 10);
      assert Decimal(n)[..|Decimal(n)| - 1] == Decimal(n / 10);
    }
  }

  /** The names tried for a component: `name`, `name__2`, `name__3` and on. */
  function Candidate(name: string, k: nat): string {
    if k == 0 then name else name + "__" + Decimal(k + 1)
  }

  lemma CandidatesDiffer(name: string, i: nat, k: nat)
    requires Candidate(name, i) == Candidate(name, k)
    ensures i == k
  {
    if i > 0 && k > 0 {
      assert Candidate(name, i)[|name| + 2..] == Decimal(i + 1) && Candidate(name, k)[|name| + 2..] == Decimal(k + 1);
      DecimalInjective(i + 1, k + 1);
    }
  }

  predicate Fits(c: Components, target: string, schema: Json) {
    target !in c || c[target] == schema
  }

  /** The first candidate that is free or already holds the very schema. */
  ghost predicate FirstFit(c: Components, name: string, schema: Json, target: string) {
    Fits(c, target, schema) && exists k: nat :: Candidate(name, k) == target && forall i: nat :: i < k ==> !Fits(c, Candidate(name, i), schema)
  }

  // ----- walked but not yet rewritten -------------------------------------------------

  /** `r` becomes the hoisted form of `j` once the table around it has been renamed. */
  ghost predicate Ready(j: Json, r: Json, shared: Components) {
    forall names :: Hoisted(j, names, Rewrite(r, names), shared)
  }

  lemma ReadyStays(j: Json, r: Json, c: Components, d: Components)
    requires Ready(j, r, c) && Extends(c, d)
    ensures Ready(j, r, d)
  {
    forall names ensures Hoisted(j, names, Rewrite(r, names), d) { StaysHoisted(j, names, Rewrite(r, names), c, d); }
  }

  ghost predicate MembersReady(fields: map<string, Json>, done: map<string, Json>, names: set<string>, shared: Components) {
    forall key :: key in done ==> key in fields && Open(done[key], names) && Ready(fields[key], done[key], shared)
  }

  lemma MembersStayReady(fields: map<string, Json>, done: map<string, Json>, names: set<string>, c: Components, d: Components)
    requires MembersReady(fields, done, names, c) && Extends(c, d)
    ensures MembersReady(fields, done, names, d)
  {
    forall key | key in done ensures Ready(fields[key], done[key], d) { ReadyStays(fields[key], done[key], c, d); }
  }

  /** A walk keeps the kind of a value, and does not touch strings and atoms. */
  lemma ReadyKind(j: Json, r: Json, shared: Components)
    requires Ready(j, r, shared)
    ensures (j.Obj? <==> r.Obj?) && (j.Str? || r.Str? ==> r == j)
  {
    assert Hoisted(j, map[], Rewrite(r, map[]), shared);
  }

  /** The members of an object rewritten, without its table. */
  function Outside(done: map<string, Json>, m: map<string, string>): map<string, Json> {
    map key | key in done && !IsTable(done, key) :: RewriteFields(Obj(done), m)[key]
  }

  /** The components that were inserted are the entries themselves, so they are rewritten
      with the object they came from. */
  function Renamed(before: Components, inserted: Components, m: map<string, string>): Components {
    map c | c in inserted :: if c in before then inserted[c] else Rewrite(inserted[c], m)
  }

  /** Rewriting what the walk left and dropping the table hoists the members. */
  lemma MembersHoisted(fields: map<string, Json>, done: map<string, Json>, names: set<string>, m: map<string, string>, shared: Components, out: map<string, Json>)
    requires done.Keys == fields.Keys && MembersReady(fields, done, names, shared)
    requires out == Outside(done, m)
    ensures FieldsHoisted(Obj(fields), m, out, shared)
  {
    forall key | key in fields ensures (fields[key].Obj? <==> done[key].Obj?) && (fields[key].Str? || done[key].Str? ==> done[key] == fields[key]) {
      ReadyKind(fields[key], done[key], shared);
    }
    forall key | key in out && !(key == REF && IsLocal(fields[key])) ensures Hoisted(fields[key], m, out[key], shared) {
      assert out[key] == Rewrite(done[key], m);
      assert Ready(fields[key], done[key], shared);
    }
  }

  /** An object without a table, its members walked. */
  lemma PlainReady(fields: map<string, Json>, done: map<string, Json>, names: set<string>, shared: Components)
    requires !HasTable(fields) && done.Keys == fields.Keys && MembersReady(fields, done, names, shared)
    requires REF in fields && IsLocal(fields[REF]) ==> LocalName(fields[REF]) in names
    ensures Open(Obj(done), names) && Ready(Obj(fields), Obj(done), shared)
  {
    forall key | key in fields ensures (fields[key].Obj? <==> done[key].Obj?) && (fields[key].Str? || done[key].Str? ==> done[key] == fields[key]) {
      ReadyKind(fields[key], done[key], shared);
    }
    forall m ensures Hoisted(Obj(fields), m, Rewrite(Obj(done), m), shared) {
      var out := RewriteFields(Obj(done), m);
      assert out == Outside(done, m);
      MembersHoisted(fields, done, names, m, shared, out);
    }
  }

  ghost predicate Settled(table: map<string, Json>, m: map<string, string>, shared: Components) {
    && m.Keys == table.Keys
    && forall name :: name in table ==> m[name] in shared && shared[m[name]] == Rewrite(table[name], m)
  }

  /** An object whose walked table has been settled among the components. */
  lemma TableReady(fields: map<string, Json>, done: map<string, Json>, m: map<string, string>, shared: Components, out: map<string, Json>)
    requires HasTable(fields) && done.Keys == fields.Keys && MembersReady(fields, done, Entries(fields).Keys, shared)
    requires !HasTable(Entries(fields)) && !(REF in Entries(fields) && Entries(fields)[REF].Str?)
    requires HasTable(done) && Settled(Entries(done), m, shared)
    requires out == Outside(done, m)
    ensures Clean(Obj(out)) && Ready(Obj(fields), Obj(out), shared)
  {
    MembersHoisted(fields, done, Entries(fields).Keys, m, shared, out);
    OutsideClean(done, Entries(fields).Keys, m, out);
    EntriesHoisted(fields, done, m, shared);
    forall names ensures Hoisted(Obj(fields), names, Rewrite(Obj(out), names), shared) {
      CleanStays(Obj(out), names);
    }
  }

  lemma OutsideClean(done: map<string, Json>, names: set<string>, m: map<string, string>, out: map<string, Json>)
    requires forall key :: key in done ==> Open(done[key], names)
    requires out == Outside(done, m)
    ensures Clean(Obj(out))
  {
    forall key | key in out ensures Clean(out[key]) && (key == REF ==> !IsLocal(out[key])) && (key == TABLE ==> !out[key].Obj?) {
      RefKinds(if IsLocal(done[key]) then Target(m, LocalName(done[key])) else "");
      RewriteCleans(done[key], names, m);
    }
  }

  lemma EntriesHoisted(fields: map<string, Json>, done: map<string, Json>, m: map<string, string>, shared: Components)
    requires HasTable(fields) && HasTable(done) && Ready(fields[TABLE], done[TABLE], shared)
    requires !HasTable(Entries(fields)) && !(REF in Entries(fields) && Entries(fields)[REF].Str?)
    requires Settled(Entries(done), m, shared)
    ensures TableHoisted(Obj(fields), m, shared)
  {
    var table, walked := fields[TABLE], done[TABLE];
    var out := RewriteFields(walked, m);
    assert Hoisted(table, m, Rewrite(walked, m), shared);
    assert FieldsHoisted(table, m, out, shared);
    forall name | name in table.fields ensures Hoisted(table.fields[name], m, shared[m[name]], shared) {
      assert out[name] == Rewrite(walked.fields[name], m);
    }
  }

  lemma ItemsReady(items: seq<Json>, done: seq<Json>, names: set<string>, shared: Components)
    requires |done| == |items| && forall i :: 0 <= i < |items| ==> Open(done[i], names) && Ready(items[i], done[i], shared)
    ensures Open(Arr(done), names) && Ready(Arr(items), Arr(done), shared)
  {
    forall m ensures Hoisted(Arr(items), m, Rewrite(Arr(done), m), shared) {
      forall i | 0 <= i < |items| ensures Hoisted(items[i], m, Rewrite(done[i], m), shared) {
        assert Ready(items[i], done[i], shared);
      }
    }
  }

  ghost predicate TableWalked(table: map<string, Json>, names: set<string>) {
    forall name :: name in table ==> Open(table[name], names)
  }

  /** Rewriting what was inserted settles the table: what was reused had nothing to rewrite. */
  lemma RewritingSettles(before: Components, inserted: Components, table: map<string, Json>, m: map<string, string>, now: Components)
    requires AllClean(before) && Extends(before, inserted) && m.Keys == table.Keys
    requires forall name :: name in table ==> m[name] in inserted && inserted[m[name]] == table[name]
    requires now == Renamed(before, inserted, m)
    ensures Settled(table, m, now) && Extends(before, now)
  {
    forall name | name in table ensures now[m[name]] == Rewrite(table[name], m) {
      if m[name] in before { CleanStays(table[name], m); }
    }
  }

  ghost predicate AmongFirst(tried: set<string>, name: string, n: nat) {
    forall c :: c in tried ==> exists i: nat :: i < n && Candidate(name, i) == c
  }

  lemma NotYetTried(tried: set<string>, name: string, n: nat)
    requires AmongFirst(tried, name, n)
    ensures Candidate(name, n) !in tried && AmongFirst(tried + {Candidate(name, n)}, name, n + 1)
  {
    if Candidate(name, n) in tried {
      var i: nat :| i < n && Candidate(name, i) == Candidate(name, n);
      CandidatesDiffer(name, i, n);
      assert false;
    }
    forall c | c in tried ensures exists i: nat :: i < n + 1 && Candidate(name, i) == c {
      var i: nat :| i < n && Candidate(name, i) == c;
    }
  }

  lemma OneLessToTry(all: set<string>, tried: set<string>, target: string)
    requires target in all && target !in tried
    ensures |all - (tried + {target})| < |all - tried|
  {
    assert all - tried == (all - (tried + {target})) + {target};
  }

  /** The search ends because it never tries a name twice and all names tried are taken. */
  method FindTarget(c: Components, name: string, schema: Json) returns (target: string)
    ensures FirstFit(c, name, schema, target)
  {
    target := name;
    ghost var tried: set<string> := {};
    var tries: nat := 0;
    while !Fits(c, target, schema)
      invariant target == Candidate(name, tries)
      invariant forall i: nat :: i < tries ==> !Fits(c, Candidate(name, i), schema)
      invariant tried <= c.Keys && AmongFirst(tried, name, tries)
      decreases |c.Keys - tried|
    {
      NotYetTried(tried, name, tries);
      OneLessToTry(c.Keys, tried, target);
      tried := tried + {target};
      tries := tries + 1;
      target := Candidate(name, tries);
    }
  }

  lemma InsertedAreClean(before: Components, inserted: Components, table: map<string, Json>, names: set<string>, m: map<string, string>, now: Components)
    requires AllClean(before) && Extends(before, inserted) && TableWalked(table, names)
    requires forall c :: c in inserted && c !in before ==> exists name :: name in table && inserted[c] == table[name]
    requires now == Renamed(before, inserted, m)
    ensures AllClean(now)
  {
    forall c | c in now ensures Clean(now[c]) {
      if c !in before { RewriteCleans(inserted[c], names, m); }
    }
  }

  /** What allocating the walked table leaves to be rewritten. */
  ghost predicate Allocated(before: Components, inserted: Components, table: map<string, Json>, m: map<string, string>) {
    && Extends(before, inserted) && m.Keys == table.Keys
    && (forall name :: name in table ==> m[name] in inserted && inserted[m[name]] == table[name])
    && (forall c :: c in inserted && c !in before ==> exists name :: name in table && inserted[c] == table[name])
  }

  lemma ComponentsRight(before: Components, inserted: Components, table: map<string, Json>, names: set<string>, m: map<string, string>)
    requires AllClean(before) && TableWalked(table, names) && Allocated(before, inserted, table, m)
    ensures var now := Renamed(before, inserted, m);
      AllClean(now) && Extends(before, now) && Settled(table, m, now)
  {
    RewritingSettles(before, inserted, table, m, Renamed(before, inserted, m));
    InsertedAreClean(before, inserted, table, names, m, Renamed(before, inserted, m));
  }

  lemma WalkedTable(fields: map<string, Json>, done: map<string, Json>, names: set<string>, shared: Components)
    requires MembersReady(fields, done, names, shared) && HasTable(done)
    ensures TableWalked(Entries(done), names)
  {
    assert Open(done[TABLE], names);
  }

  lemma ObjectRight(fields: map<string, Json>, done: map<string, Json>, before: Components, m: map<string, string>, now: Components)
    requires HasTable(done) && HasTable(fields) && done.Keys == fields.Keys
    requires MembersReady(fields, done, Entries(fields).Keys, before) && Extends(before, now)
    requires !HasTable(Entries(fields)) && !(REF in Entries(fields) && Entries(fields)[REF].Str?)
    requires Settled(Entries(done), m, now)
    ensures Clean(Obj(Outside(done, m))) && Ready(Obj(fields), Obj(Outside(done, m)), now)
  {
    MembersStayReady(fields, done, Entries(fields).Keys, before, now);
    TableReady(fields, done, m, now, Outside(done, m));
  }

  lemma {:induction false} WiderNames(j: Json, names: set<string>, wider: set<string>)
    requires Open(j, names) && names <= wider
    ensures Open(j, wider)
  {
    match j
    case Obj(fields) => forall key | key in fields ensures Open(fields[key], wider) { WiderNames(fields[key], names, wider); }
    case Arr(items) => forall i | 0 <= i < |items| ensures Open(items[i], wider) { WiderNames(items[i], names, wider); }
    case _ =>
  }


  /** A clean document that is ready over the components means what the original meant. */
  lemma HoistedMeans(document: Json, r: Json, before: Components, after: Components)
    requires Resolved(document, {}, before.Keys) && Closed(before) && Extends(before, after)
    requires Clean(r) && Ready(document, r, after)
    ensures forall n :: Unfold(n, document, map[], before) == Unfold(n, r, map[], after)
  {
    var none: map<string, Json>, unnamed: map<string, string> := map[], map[];
    assert none.Keys == {};
    CleanStays(r, unnamed);
    assert Hoisted(document, unnamed, Rewrite(r, unnamed), after);
    forall n ensures Unfold(n, document, none, before) == Unfold(n, r, none, after) {
      MeaningKept(n, document, none, unnamed, r, before, after);
    }
  }
}
