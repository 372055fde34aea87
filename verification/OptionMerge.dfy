/** Folding the option maps of a group's members into the one map its form is built from. */
module OptionMerge {
  datatype Widget = Widget(id: string, options: map<string, string>)

  /** One entry of an option map: widget, label, option. */
  datatype Fact = Fact(widget: string, caption: string, option: string)

  function Facts(ws: seq<Widget>): set<Fact> {
    set w, l | w in ws && l in w.options :: Fact(w.id, l, w.options[l])
  }

  function Ids(ws: seq<Widget>): seq<string> {
    seq(|ws|, i requires 0 <= i < |ws| => ws[i].id)
  }

  predicate Distinct(ids: seq<string>) {
    forall i, j :: 0 <= i < j < |ids| ==> ids[i] != ids[j]
  }

  /** The facts about widgets the pool has; the others are ignored. */
  function On(ids: seq<string>, ws: seq<Widget>): set<Fact> {
    set f | f in Facts(ws) && f.widget in ids
  }

  /** No label of a widget stands for two options. */
  predicate Functional(fs: set<Fact>) {
    forall f, g :: f in fs && g in fs && f.widget == g.widget && f.caption == g.caption ==> f.option == g.option
  }

  lemma PoolIsFunctional(ws: seq<Widget>)
    requires Distinct(Ids(ws))
    ensures Functional(Facts(ws))
  {
    forall f, g | f in Facts(ws) && g in Facts(ws) && f.widget == g.widget && f.caption == g.caption
      ensures f.option == g.option
    {
      var i :| 0 <= i < |ws| && ws[i].id == f.widget && f.caption in ws[i].options && ws[i].options[f.caption] == f.option;
      var j :| 0 <= j < |ws| && ws[j].id == g.widget && g.caption in ws[j].options && ws[j].options[g.caption] == g.option;
      assert Ids(ws)[i] == Ids(ws)[j];
    }
  }

  /** With distinct ids, a pool is its ids and its facts. */
  lemma PoolDetermined(a: seq<Widget>, b: seq<Widget>)
    requires Distinct(Ids(a)) && Ids(a) == Ids(b) && Facts(a) == Facts(b)
    ensures a == b
  {
    assert |a| == |Ids(a)| == |b|;
    forall i | 0 <= i < |a| ensures a[i] == b[i] {
      assert Ids(a)[i] == a[i].id && Ids(b)[i] == b[i].id;
      OptionsSame(a, b, i);
      OptionsSame(b, a, i);
    }
  }

  lemma OptionsSame(a: seq<Widget>, b: seq<Widget>, i: nat)
    requires Distinct(Ids(a)) && Ids(a) == Ids(b) && Facts(a) == Facts(b) && i < |a| == |b|
    ensures forall l :: l in a[i].options ==> l in b[i].options && b[i].options[l] == a[i].options[l]
  {
    forall l | l in a[i].options ensures l in b[i].options && b[i].options[l] == a[i].options[l] {
      var f := Fact(a[i].id, l, a[i].options[l]);
      assert f in Facts(a);
      var j :| 0 <= j < |b| && b[j].id == f.widget && l in b[j].options && b[j].options[l] == f.option;
      assert Ids(b)[j] == Ids(b)[i] by { assert Ids(a)[i] == Ids(b)[i]; }
    }
  }

  lemma FactsOfUpdate(ws: seq<Widget>, at: nat, l: string, option: string)
    requires at < |ws| && Distinct(Ids(ws)) && l !in ws[at].options
    ensures var grown := ws[at := ws[at].(options := ws[at].options[l := option])];
      Ids(grown) == Ids(ws) && Facts(grown) == Facts(ws) + {Fact(ws[at].id, l, option)}
  {
    var grown := ws[at := ws[at].(options := ws[at].options[l := option])];
    assert grown[at] in grown;
    forall f | f in Facts(ws) ensures f in Facts(grown) {
      var i :| 0 <= i < |ws| && ws[i].id == f.widget && f.caption in ws[i].options && ws[i].options[f.caption] == f.option;
      assert grown[i] in grown && grown[i].id == f.widget;
      assert f.caption in grown[i].options && grown[i].options[f.caption] == f.option;
    }
    assert Fact(ws[at].id, l, grown[at].options[l]) in Facts(grown);
    forall f | f in Facts(grown) ensures f in Facts(ws) + {Fact(ws[at].id, l, option)} {
      var i :| 0 <= i < |grown| && grown[i].id == f.widget && f.caption in grown[i].options && grown[i].options[f.caption] == f.option;
      assert ws[i] in ws;
    }
  }

  /** The facts of one widget whose label is among `labels`. */
  function Part(w: Widget, labels: set<string>): set<Fact> {
    set l | l in labels && l in w.options :: Fact(w.id, l, w.options[l])
  }

  lemma PartGrows(w: Widget, labels: set<string>, l: string)
    requires l in w.options && l !in labels
    ensures Part(w, labels + {l}) == Part(w, labels) + {Fact(w.id, l, w.options[l])}
    ensures Fact(w.id, l, w.options[l]) in Facts([w])
    ensures Part(w, labels) <= Facts([w]) && Part(w, w.options.Keys) == Facts([w])
  {
    assert w in [w];
  }

  /** A pool that grew from `start` by exactly these facts. */
  predicate GrewBy(start: seq<Widget>, pool: seq<Widget>, more: set<Fact>) {
    Ids(pool) == Ids(start) && Facts(pool) == Facts(start) + more
  }

  lemma KnownFact(pool: seq<Widget>, at: nat, l: string)
    requires at < |pool| && l in pool[at].options
    ensures Fact(pool[at].id, l, pool[at].options[l]) in Facts(pool)
  {
  }

  lemma Clash(start: seq<Widget>, pool: seq<Widget>, w: Widget, labels: set<string>, at: nat, l: string)
    requires GrewBy(start, pool, Part(w, labels)) && at < |pool| && pool[at].id == w.id
    requires l in w.options && l in pool[at].options && pool[at].options[l] != w.options[l] && l !in labels
    ensures !Functional(Facts(start) + Facts([w]))
  {
    PartGrows(w, labels, l);
    KnownFact(pool, at, l);
    var known := Fact(w.id, l, pool[at].options[l]);
    assert known in Facts(start) + Facts([w]);
  }

  /** Every label merged: the pool holds the facts of both, which therefore agree. */
  lemma AllMerged(start: seq<Widget>, pool: seq<Widget>, w: Widget, done: set<string>)
    requires Distinct(Ids(pool)) && done == w.options.Keys && GrewBy(start, pool, Part(w, done))
    ensures Facts(pool) == Facts(start) + Facts([w]) && Functional(Facts(start) + Facts([w]))
  {
    assert w in [w] && Part(w, done) == Facts([w]);
    PoolIsFunctional(pool);
  }

  /** Merges one label; `done` are those merged before it. */
  method MergeLabel(pooled: array<Widget>, at: nat, w: Widget, l: string, ghost start: seq<Widget>, ghost done: set<string>)
    returns (agrees: bool)
    requires at < pooled.Length && pooled[at].id == w.id && l in w.options && l !in done
    requires Distinct(Ids(pooled[..])) && GrewBy(start, pooled[..], Part(w, done))
    modifies pooled
    ensures Ids(pooled[..]) == old(Ids(pooled[..])) && pooled[at].id == w.id
    ensures agrees ==> GrewBy(start, pooled[..], Part(w, done + {l}))
    ensures !agrees ==> !Functional(Facts(start) + Facts([w]))
  {
    PartGrows(w, done, l);
    if l !in pooled[at].options {
      FactsOfUpdate(pooled[..], at, l, w.options[l]);
      ghost var was := pooled[..];
      pooled[at] := pooled[at].(options := pooled[at].options[l := w.options[l]]);
      assert pooled[..] == was[at := was[at].(options := was[at].options[l := w.options[l]])];
    } else if pooled[at].options[l] == w.options[l] {
      KnownFact(pooled[..], at, l);
    } else {
      Clash(start, pooled[..], w, done, at, l);
      return false;
    }
    return true;
  }

  /** Merges one widget into the entry of the pool that has its id. */
  method MergeWidget(pooled: array<Widget>, at: nat, w: Widget) returns (ok: bool)
    requires at < pooled.Length && pooled[at].id == w.id && Distinct(Ids(pooled[..]))
    modifies pooled
    ensures Ids(pooled[..]) == old(Ids(pooled[..]))
    ensures ok <==> Functional(old(Facts(pooled[..])) + Facts([w]))
    ensures ok ==> Facts(pooled[..]) == old(Facts(pooled[..])) + Facts([w])
  {
    ghost var start := pooled[..];
    var todo, done := w.options.Keys, {};
    assert GrewBy(start, pooled[..], Part(w, {}));
    while todo != {}
      invariant todo !! done && todo + done == w.options.Keys
      invariant Ids(pooled[..]) == Ids(start) && pooled[at].id == w.id
      invariant GrewBy(start, pooled[..], Part(w, done))
      decreases |todo|
    {
      var l :| l in todo;
      var agrees := MergeLabel(pooled, at, w, l, start, done);
      if !agrees { return false; }
      todo, done := todo - {l}, done + {l};
    }
    AllMerged(start, pooled[..], w, done);
    return true;
  }

  /** The entry of the pool with this id, if there is one. */
  method Find(pooled: array<Widget>, id: string) returns (at: nat)
    ensures at <= pooled.Length
    ensures at < pooled.Length ==> pooled[at].id == id
    ensures at == pooled.Length ==> id !in Ids(pooled[..])
  {
    at := 0;
    while at < pooled.Length && pooled[at].id != id
      invariant at <= pooled.Length && forall j :: 0 <= j < at ==> pooled[j].id != id
    {
      at := at + 1;
    }
  }

  lemma OnGrows(ids: seq<string>, ws: seq<Widget>, i: nat)
    requires i < |ws|
    ensures On(ids, ws[..i + 1]) == On(ids, ws[..i]) + (if ws[i].id in ids then Facts([ws[i]]) else {})
    ensures On(ids, ws[..i + 1]) <= On(ids, ws)
  {
    assert ws[..i + 1] == ws[..i] + [ws[i]];
    assert forall w :: w in ws[..i + 1] <==> w in ws[..i] || w == ws[i];
    assert forall w :: w in [ws[i]] <==> w == ws[i];
  }

  lemma NotFunctional(few: set<Fact>, many: set<Fact>)
    requires few <= many && !Functional(few)
    ensures !Functional(many)
  {
  }

  /** A widget the pool does not have is passed over; `done` is what was merged before. */
  method MergeIfPooled(pooled: array<Widget>, w: Widget, ghost start: seq<Widget>, ghost done: set<Fact>) returns (agrees: bool)
    requires Distinct(Ids(pooled[..])) && GrewBy(start, pooled[..], done)
    modifies pooled
    ensures Ids(pooled[..]) == old(Ids(pooled[..]))
    ensures agrees ==> GrewBy(start, pooled[..], done + (if w.id in Ids(start) then Facts([w]) else {}))
    ensures !agrees ==> w.id in Ids(start) && !Functional(Facts(start) + done + Facts([w]))
  {
    var at := Find(pooled, w.id);
    if at == pooled.Length { return true; }
    assert Ids(pooled[..])[at] == w.id;
    agrees := MergeWidget(pooled, at, w);
  }

  /** Merges one member: it succeeds exactly when pool and member never disagree on a
      label of a pooled widget, and the pool then holds the union. */
  method MergeOptionMaps(pooled: array<Widget>, member: seq<Widget>) returns (ok: bool)
    requires Distinct(Ids(pooled[..]))
    modifies pooled
    ensures Ids(pooled[..]) == old(Ids(pooled[..]))
    ensures ok <==> Functional(old(Facts(pooled[..])) + On(old(Ids(pooled[..])), member))
    ensures ok ==> Facts(pooled[..]) == old(Facts(pooled[..])) + On(old(Ids(pooled[..])), member)
  {
    ghost var start := pooled[..];
    ghost var ids := Ids(start);
    assert On(ids, member[..0]) == {};
    var i := 0;
    while i < |member|
      invariant 0 <= i <= |member|
      invariant GrewBy(start, pooled[..], On(ids, member[..i]))
    {
      OnGrows(ids, member, i);
      var agrees := MergeIfPooled(pooled, member[i], start, On(ids, member[..i]));
      if !agrees {
        NotFunctional(Facts(start) + On(ids, member[..i]) + Facts([member[i]]), Facts(start) + On(ids, member));
        return false;
      }
      i := i + 1;
    }
    assert member[..i] == member;
    PoolIsFunctional(pooled[..]);
    return true;
  }

  /** What all members together say about the pooled widgets. */
  function Said(ids: seq<string>, members: seq<seq<Widget>>): set<Fact> {
    set m, f | m in members && f in On(ids, m) :: f
  }

  lemma SaidGrows(ids: seq<string>, members: seq<seq<Widget>>, i: nat)
    requires i < |members|
    ensures Said(ids, members[..i + 1]) == Said(ids, members[..i]) + On(ids, members[i])
    ensures Said(ids, members[..i + 1]) <= Said(ids, members)
  {
    assert forall m :: m in members[..i + 1] <==> m in members[..i] || m == members[i];
  }

  /** The whole fold. */
  method MergeMembers(pooled: array<Widget>, members: seq<seq<Widget>>) returns (ok: bool)
    requires Distinct(Ids(pooled[..]))
    modifies pooled
    ensures Ids(pooled[..]) == old(Ids(pooled[..]))
    ensures ok <==> Functional(old(Facts(pooled[..])) + Said(old(Ids(pooled[..])), members))
    ensures ok ==> Facts(pooled[..]) == old(Facts(pooled[..])) + Said(old(Ids(pooled[..])), members)
  {
    ghost var start := pooled[..];
    ghost var ids := Ids(start);
    assert Said(ids, members[..0]) == {};
    var i := 0;
    while i < |members|
      invariant 0 <= i <= |members|
      invariant GrewBy(start, pooled[..], Said(ids, members[..i]))
    {
      SaidGrows(ids, members, i);
      var merged := MergeOptionMaps(pooled, members[i]);
      if !merged {
        NotFunctional(Facts(start) + Said(ids, members[..i]) + On(ids, members[i]), Facts(start) + Said(ids, members));
        return false;
      }
      i := i + 1;
    }
    assert members[..i] == members;
    PoolIsFunctional(pooled[..]);
    return true;
  }

  /** What `MergeMembers` promises for one order of the members. */
  predicate FoldResult(pool: seq<Widget>, members: seq<seq<Widget>>, ok: bool, out: seq<Widget>) {
    && Ids(out) == Ids(pool)
    && (ok <==> Functional(Facts(pool) + Said(Ids(pool), members)))
    && (ok ==> Facts(out) == Facts(pool) + Said(Ids(pool), members))
  }

  /** Neither success nor the merged pool depends on the order of the members, and
      success is agreement of all of them on every pooled label. */
  lemma OrderDoesNotMatter(
    pool: seq<Widget>, a: seq<seq<Widget>>, b: seq<seq<Widget>>,
    okA: bool, outA: seq<Widget>, okB: bool, outB: seq<Widget>)
    requires Distinct(Ids(pool)) && multiset(a) == multiset(b)
    requires FoldResult(pool, a, okA, outA) && FoldResult(pool, b, okB, outB)
    ensures okA == okB && (okA ==> outA == outB)
  {
    forall m ensures m in a <==> m in b {
      assert m in a <==> m in multiset(a);
      assert m in b <==> m in multiset(b);
    }
    assert Said(Ids(pool), a) == Said(Ids(pool), b);
    if okA { PoolDetermined(outA, outB); }
  }
}
