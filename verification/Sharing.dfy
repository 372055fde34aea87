/** When two equal definitions come to share one component. */
module Sharing {
  import opened Hoist

  /** The entries of a table placed in `order`, each at the first candidate that is free or
      holds the very schema; `placed` is the components in between. */
  ghost predicate Placing(placed: seq<Components>, order: seq<string>, table: map<string, Json>, m: map<string, string>) {
    |placed| == |order| + 1 && forall i: nat :: i < |order| ==> PlacedAt(placed, i, order, table, m)
  }

  ghost predicate PlacedAt(placed: seq<Components>, i: nat, order: seq<string>, table: map<string, Json>, m: map<string, string>)
    requires i < |order| && |placed| == |order| + 1
  {
    && order[i] in table && order[i] in m
    && FirstFit(placed[i], order[i], table[order[i]], m[order[i]])
    && placed[i + 1] == placed[i][m[order[i]] := table[order[i]]]
  }

  lemma PlacedOneMore(placed: seq<Components>, order: seq<string>, table: map<string, Json>, m: map<string, string>, name: string, target: string, now: Components)
    requires Placing(placed, order, table, m) && name !in order && name in table
    requires FirstFit(placed[|order|], name, table[name], target) && now == placed[|order|][target := table[name]]
    ensures Placing(placed + [now], order + [name], table, m[name := target])
  {
    var longer, next, more := placed + [now], order + [name], m[name := target];
    forall i: nat | i < |next| ensures PlacedAt(longer, i, next, table, more) {
      if i < |order| { assert PlacedAt(placed, i, order, table, m); }
    }
  }

  /** A table settled: its entries placed, in whatever order, and then rewritten with the
      object they came from. */
  ghost predicate Run(before: Components, placed: seq<Components>, order: seq<string>, table: map<string, Json>, m: map<string, string>, after: Components) {
    && Placing(placed, order, table, m) && placed[0] == before
    && after == Renamed(before, placed[|order|], m)
  }

  lemma {:induction false} PlacedStay(placed: seq<Components>, i: nat, k: nat, order: seq<string>, table: map<string, Json>, m: map<string, string>)
    requires Placing(placed, order, table, m) && i <= k < |placed|
    ensures Extends(placed[i], placed[k])
    decreases k
  {
    if i == k {
    } else {
      PlacedStay(placed, i, k - 1, order, table, m);
      assert PlacedAt(placed, k - 1, order, table, m);
    }
  }

  /** A component that the table under way has put under a candidate name, still unrewritten. */
  ghost predicate PlacedHere(before: Components, now: Components, name: string, schema: Json) {
    exists k: nat :: Candidate(name, k) in now && Candidate(name, k) !in before && now[Candidate(name, k)] == schema
                     && forall i: nat :: i < k ==> Candidate(name, i) in now
  }

  /** Two tables hold the same definition under the same name. The first is done; the second
      is at its `j`-th entry, this one. It is given a component that is there already if and
      only if nothing was rewritten in it by the first table, or its own table has just
      placed an equal entry. */
  lemma EqualIsSharedExactly(before: Components, placed: seq<Components>, order: seq<string>, table: map<string, Json>, names: set<string>, m: map<string, string>, after: Components,
                             placed': seq<Components>, order': seq<string>, table': map<string, Json>, m': map<string, string>, i: nat, j: nat)
    requires AllClean(before) && TableWalked(table, names) && Run(before, placed, order, table, m, after)
    requires Placing(placed', order', table', m') && AllClean(placed'[0]) && Extends(after, placed'[0])
    requires i < |order| && j < |order'| && order[i] == order'[j] && order[i] in table && order'[j] in table' && order'[j] in m'
    requires table[order[i]] == table'[order'[j]]
    ensures var (name, schema) := (order'[j], table'[order'[j]]);
      m'[name] in placed'[j] <==> Clean(schema) || PlacedHere(placed'[0], placed'[j], name, schema)
  {
    var name, schema, target := order[i], table[order[i]], m'[order'[j]];
    var old', now := placed'[0], placed'[j];
    PlacedStay(placed', 0, j, order', table', m');
    assert PlacedAt(placed', j, order', table', m') && PlacedAt(placed, i, order, table, m);
    PlacedStay(placed, 0, i, order, table, m);
    PlacedStay(placed, i, |order|, order, table, m);
    PlacedStay(placed, i + 1, |order|, order, table, m);
    if target in now {
      if target in old' {
        assert now[target] == schema;
      } else {
        var k: nat :| Candidate(name, k) == target && forall n: nat :: n < k ==> !Fits(now, Candidate(name, n), schema);
        assert forall n: nat :: n < k ==> Candidate(name, n) in now;
      }
    }
    if Clean(schema) {
      FirstIsStillThere(placed[i], name, schema, m[name], now);
      assert placed[i + 1][m[name]] == schema;
      CleanStays(schema, m);
      assert m[name] in after && after[m[name]] == schema;
      TakenIfThere(now, name, schema, target, m[name]);
    }
    if PlacedHere(old', now, name, schema) {
      var k: nat :| Candidate(name, k) in now && now[Candidate(name, k)] == schema && forall n: nat :: n < k ==> Candidate(name, n) in now;
      TakenIfThere(now, name, schema, target, Candidate(name, k));
    }
  }

  /** Names taken stay taken. */
  lemma FirstIsStillThere(c: Components, name: string, schema: Json, target: string, later: Components)
    requires FirstFit(c, name, schema, target) && c.Keys <= later.Keys
    ensures exists k: nat :: Candidate(name, k) == target && forall n: nat :: n < k ==> Candidate(name, n) in later
  {
    var k: nat :| Candidate(name, k) == target && forall n: nat :: n < k ==> !Fits(c, Candidate(name, n), schema);
    assert forall n: nat :: n < k ==> Candidate(name, n) in c;
  }

  /** A fitting component with no free candidate before it keeps the search from a free name. */
  lemma TakenIfThere(c: Components, name: string, schema: Json, target: string, there: string)
    requires FirstFit(c, name, schema, target) && there in c && c[there] == schema
    requires exists k: nat :: Candidate(name, k) == there && forall n: nat :: n < k ==> Candidate(name, n) in c
    ensures target in c
  {
    var k: nat :| Candidate(name, k) == there && forall n: nat :: n < k ==> Candidate(name, n) in c;
    var first: nat :| Candidate(name, first) == target && forall n: nat :: n < first ==> !Fits(c, Candidate(name, n), schema);
    if first > k { assert Fits(c, Candidate(name, k), schema); }
  }

  /** No two entries of the second table being equal, only what has no local reference is shared. */
  lemma SharedIfDistinct(before: Components, now: Components, name: string, schema: Json, placed: seq<Components>, order: seq<string>, j: nat, table: map<string, Json>, m: map<string, string>)
    requires Placing(placed, order, table, m) && j < |order| && before == placed[0] && now == placed[j]
    requires forall i, k :: 0 <= i < k < |order| ==> order[i] != order[k]
    requires name == order[j] && name in table && schema == table[name]
    requires forall other :: other in table && other != name ==> table[other] != schema
    ensures !PlacedHere(before, now, name, schema)
  {
    forall c | c in now && c !in before ensures now[c] != schema { InsertedIsEntry(placed, j, order, table, m, c); }
  }

  lemma {:induction false} InsertedIsEntry(placed: seq<Components>, j: nat, order: seq<string>, table: map<string, Json>, m: map<string, string>, c: string)
    requires Placing(placed, order, table, m) && j <= |order| && c in placed[j] && c !in placed[0]
    ensures exists i: nat :: i < j && order[i] in table && placed[j][c] == table[order[i]]
    decreases j
  {
    assert PlacedAt(placed, j - 1, order, table, m);
    if c != m[order[j - 1]] { InsertedIsEntry(placed, j - 1, order, table, m, c); }
  }

  /** Two tables with one and the same entry, which refers to itself or to anything local,
      leave two components. */
  lemma RecursiveSplit(name: string, schema: Json, names: set<string>)
    requires Open(schema, names) && !Clean(schema)
    ensures var table, first, second := map[name := schema], map[name := name], map[name := Candidate(name, 1)];
      var once := map[name := Rewrite(schema, first)];
      && Run(map[], [map[], table], [name], table, first, once)
      && Run(once, [once, once[Candidate(name, 1) := schema]], [name], table, second,
             once[Candidate(name, 1) := Rewrite(schema, second)])
      && Candidate(name, 1) != name
  {
    var table, first, second, next := map[name := schema], map[name := name], map[name := Candidate(name, 1)], Candidate(name, 1);
    var once := map[name := Rewrite(schema, first)];
    var none: Components := map[];
    assert Candidate(name, 0) == name;
    assert PlacedAt([none, table], 0, [name], table, first);
    assert Renamed(none, table, first) == once;
    RewriteCleans(schema, names, first);
    assert forall i: nat :: i < 1 ==> !Fits(once, Candidate(name, i), schema);
    assert PlacedAt([once, once[next := schema]], 0, [name], table, second);
    assert Renamed(once, once[next := schema], second) == once[next := Rewrite(schema, second)];
  }

  const SELF := Obj(map[REF := Str(LOCAL + "A")])

  lemma SelfIsOpen()
    ensures Open(SELF, {"A"}) && !Clean(SELF) && LocalName(SELF.fields[REF]) == "A"
  {
    var fields := SELF.fields;
    assert fields[REF].text[..|LOCAL|] == LOCAL && fields[REF].text[|LOCAL|..] == "A";
    assert IsLocal(fields[REF]);
    assert REF != TABLE by { assert REF[0] != TABLE[0]; }
  }

  /** Two tables that both define `A` by a reference to `A`: the second gets `A__2`. */
  lemma SelfReferenceSplits()
    ensures var table, first, second := map["A" := SELF], map["A" := "A"], map["A" := "A__2"];
      var once := map["A" := Rewrite(SELF, first)];
      && Run(map[], [map[], table], ["A"], table, first, once)
      && Run(once, [once, once["A__2" := SELF]], ["A"], table, second, once["A__2" := Rewrite(SELF, second)])
  {
    SelfIsOpen();
    RecursiveSplit("A", SELF, {"A"});
    assert Candidate("A", 1) == "A__2";
  }

  /** Inside one table it is shared: `A` is taken by something else, so `A` is placed as
      `A__2`, and the entry `A__2` finds it there, not yet rewritten. */
  lemma SharedWithinTable(other: Json)
    requires Clean(other)
    ensures var table, m := map["A" := SELF, "A__2" := SELF], map["A" := "A__2", "A__2" := "A__2"];
      var before := map["A" := other];
      && Run(before, [before, before["A__2" := SELF], before["A__2" := SELF]], ["A", "A__2"], table, m,
             before["A__2" := Rewrite(SELF, m)])
      && !Clean(table["A"])
  {
    SelfIsOpen();
    var table, m := map["A" := SELF, "A__2" := SELF], map["A" := "A__2", "A__2" := "A__2"];
    var before: Components := map["A" := other];
    var one := before["A__2" := SELF];
    var placed, order := [before, one, one], ["A", "A__2"];
    assert Candidate("A__2", 0) == "A__2" && Candidate("A", 0) == "A" && Candidate("A", 1) == "A__2";
    assert forall i: nat :: i < 1 ==> !Fits(before, Candidate("A", i), SELF);
    assert PlacedAt(placed, 0, order, table, m);
    assert one == one["A__2" := SELF];
    assert PlacedAt(placed, 1, order, table, m);
    assert Renamed(before, one, m) == before["A__2" := Rewrite(SELF, m)];
  }
}
