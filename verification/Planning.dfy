/** Grouping the records of one batch click by the signature of their shared fields. */
module Planning {
  datatype Candidate = Candidate(record: string, signature: string)

  datatype Planned = Planned(key: string, hash: string, members: seq<string>)

  /** Digest of a signature, and of (configuration, digest, members in any order). */
  datatype Digests = Digests(ofSignature: string -> string, ofGroup: (int, string, multiset<string>) -> string)

  /** The signatures in order of first appearance. */
  function Signatures(cs: seq<Candidate>): seq<string> {
    if cs == [] then []
    else
      var before := Signatures(cs[..|cs| - 1]);
      var last := cs[|cs| - 1].signature;
      if last in before then before else before + [last]
  }

  /** The records with this signature, in scan order. */
  function Records(cs: seq<Candidate>, signature: string): seq<string> {
    if cs == [] then []
    else
      var before := Records(cs[..|cs| - 1], signature);
      if cs[|cs| - 1].signature == signature then before + [cs[|cs| - 1].record] else before
  }

  predicate DistinctRecords(cs: seq<Candidate>) {
    forall i, j :: 0 <= i < j < |cs| ==> cs[i].record != cs[j].record
  }

  lemma {:induction false} SignaturesComplete(cs: seq<Candidate>)
    ensures forall i :: 0 <= i < |cs| ==> cs[i].signature in Signatures(cs)
    ensures forall s :: s in Signatures(cs) ==> exists i :: 0 <= i < |cs| && cs[i].signature == s
    ensures forall i, j :: 0 <= i < j < |Signatures(cs)| ==> Signatures(cs)[i] != Signatures(cs)[j]
  {
    if cs == [] {
    } else {
      var before := cs[..|cs| - 1];
      SignaturesComplete(before);
      forall s | s in Signatures(cs) ensures exists i :: 0 <= i < |cs| && cs[i].signature == s {
        if s in Signatures(before) {
          var i :| 0 <= i < |before| && before[i].signature == s;
          assert cs[i].signature == s;
        } else {
          assert cs[|cs| - 1].signature == s;
        }
      }
      forall i | 0 <= i < |cs| ensures cs[i].signature in Signatures(cs) {
        if i < |cs| - 1 { assert before[i] == cs[i]; }
      }
    }
  }

  lemma {:induction false} RecordsComplete(cs: seq<Candidate>, signature: string)
    ensures forall i :: 0 <= i < |cs| && cs[i].signature == signature ==> cs[i].record in Records(cs, signature)
    ensures forall r :: r in Records(cs, signature) ==> exists i :: 0 <= i < |cs| && cs[i] == Candidate(r, signature)
    ensures DistinctRecords(cs) ==> forall k, l :: 0 <= k < l < |Records(cs, signature)| ==> Records(cs, signature)[k] != Records(cs, signature)[l]
  {
    if cs == [] {
    } else {
      var before := cs[..|cs| - 1];
      RecordsComplete(before, signature);
      forall r | r in Records(cs, signature) ensures exists i :: 0 <= i < |cs| && cs[i] == Candidate(r, signature) {
        if r in Records(before, signature) {
          var i :| 0 <= i < |before| && before[i] == Candidate(r, signature);
          assert cs[i] == Candidate(r, signature);
        } else {
          assert cs[|cs| - 1] == Candidate(r, signature);
        }
      }
      forall i | 0 <= i < |cs| && cs[i].signature == signature ensures cs[i].record in Records(cs, signature) {
        if i < |cs| - 1 { assert before[i] == cs[i]; }
      }
    }
  }

  /** Group number i before the keys are filled in. */
  predicate Collected(d: Digests, cs: seq<Candidate>, planned: seq<Planned>) {
    && |planned| == |Signatures(cs)|
    && (forall i :: 0 <= i < |planned| ==>
          planned[i].hash == d.ofSignature(Signatures(cs)[i]) && planned[i].members == Records(cs, Signatures(cs)[i]))
  }

  ghost predicate Plan(d: Digests, config: int, cs: seq<Candidate>, planned: seq<Planned>) {
    && Collected(d, cs, planned)
    && (forall i :: 0 <= i < |planned| ==>
          planned[i].key == d.ofGroup(config, planned[i].hash, multiset(planned[i].members)))
  }

  lemma {:induction false} NoneYet(cs: seq<Candidate>, signature: string)
    requires signature !in Signatures(cs)
    ensures Records(cs, signature) == []
  {
    if cs == [] {
    } else {
      NoneYet(cs[..|cs| - 1], signature);
      SignaturesComplete(cs);
    }
  }

  /** `positions` finds the group of every signature seen so far. */
  ghost predicate Indexed(signatures: seq<string>, positions: map<string, nat>) {
    && (forall s :: s in positions <==> s in signatures)
    && (forall s :: s in positions ==> positions[s] < |signatures| && signatures[positions[s]] == s)
  }

  lemma SignaturesDistinct(cs: seq<Candidate>, i: nat, j: nat)
    requires i < |Signatures(cs)| && j < |Signatures(cs)| && Signatures(cs)[i] == Signatures(cs)[j]
    ensures i == j
  {
    SignaturesComplete(cs);
  }

  /** The loop's state after the candidates `cs`. */
  ghost predicate Sorted(d: Digests, cs: seq<Candidate>, planned: seq<Planned>, positions: map<string, nat>) {
    Collected(d, cs, planned) && Indexed(Signatures(cs), positions)
  }

  lemma SortsOneMore(d: Digests, cs: seq<Candidate>, c: Candidate, planned: seq<Planned>, positions: map<string, nat>)
    requires Sorted(d, cs, planned, positions)
    ensures c.signature in positions ==>
      var at := positions[c.signature];
      && at < |planned|
      && Sorted(d, cs + [c], planned[at := planned[at].(members := planned[at].members + [c.record])], positions)
    ensures c.signature !in positions ==>
      Sorted(d, cs + [c], planned + [Planned("", d.ofSignature(c.signature), [c.record])], positions[c.signature := |planned|])
  {
    if c.signature in positions {
      JoinsGroup(d, cs, c, planned, positions[c.signature]);
    } else {
      OpensGroup(d, cs, c, planned);
    }
  }

  lemma JoinsGroup(d: Digests, cs: seq<Candidate>, c: Candidate, planned: seq<Planned>, at: nat)
    requires Collected(d, cs, planned) && at < |planned| && Signatures(cs)[at] == c.signature
    ensures Signatures(cs + [c]) == Signatures(cs)
    ensures Collected(d, cs + [c], planned[at := planned[at].(members := planned[at].members + [c.record])])
  {
    assert (cs + [c])[..|cs|] == cs;
    var joined := planned[at := planned[at].(members := planned[at].members + [c.record])];
    forall i | 0 <= i < |joined|
      ensures joined[i].members == Records(cs + [c], Signatures(cs)[i])
    {
      if Signatures(cs)[i] == c.signature { SignaturesDistinct(cs, i, at); }
    }
  }

  lemma OpensGroup(d: Digests, cs: seq<Candidate>, c: Candidate, planned: seq<Planned>)
    requires Collected(d, cs, planned) && c.signature !in Signatures(cs)
    ensures Signatures(cs + [c]) == Signatures(cs) + [c.signature]
    ensures Collected(d, cs + [c], planned + [Planned("", d.ofSignature(c.signature), [c.record])])
  {
    assert (cs + [c])[..|cs|] == cs;
    NoneYet(cs, c.signature);
    forall i | 0 <= i < |planned| ensures Records(cs + [c], Signatures(cs)[i]) == Records(cs, Signatures(cs)[i]) {
      assert Signatures(cs)[i] in Signatures(cs);
    }
  }

  /** One group per distinct signature, members in scan order. */
  method Collect(d: Digests, cs: seq<Candidate>) returns (planned: seq<Planned>)
    ensures Collected(d, cs, planned)
  {
    planned := [];
    var positions: map<string, nat> := map[];
    var i := 0;
    while i < |cs|
      invariant 0 <= i <= |cs|
      invariant Sorted(d, cs[..i], planned, positions)
    {
      var c := cs[i];
      assert cs[..i + 1] == cs[..i] + [c];
      SortsOneMore(d, cs[..i], c, planned, positions);
      if c.signature in positions {
        var at := positions[c.signature];
        planned := planned[at := planned[at].(members := planned[at].members + [c.record])];
      } else {
        positions := positions[c.signature := |planned|];
        planned := planned + [Planned("", d.ofSignature(c.signature), [c.record])];
      }
      i := i + 1;
    }
    assert cs[..i] == cs;
  }

  method PlanGroups(d: Digests, config: int, cs: seq<Candidate>) returns (planned: seq<Planned>)
    ensures Plan(d, config, cs, planned)
  {
    planned := Collect(d, cs);
    var i := 0;
    while i < |planned|
      invariant 0 <= i <= |planned| && Collected(d, cs, planned)
      invariant forall j :: 0 <= j < i ==> planned[j].key == d.ofGroup(config, planned[j].hash, multiset(planned[j].members))
    {
      planned := planned[i := planned[i].(key := d.ofGroup(config, planned[i].hash, multiset(planned[i].members)))];
      i := i + 1;
    }
  }

  predicate Placed(planned: seq<Planned>, record: string, group: nat, rank: nat) {
    group < |planned| && rank < |planned[group].members| && planned[group].members[rank] == record
  }

  /** Record `i` has a place, in the group of its own signature. */
  ghost predicate AtHome(cs: seq<Candidate>, planned: seq<Planned>, i: nat)
    requires i < |cs| && |planned| == |Signatures(cs)|
  {
    exists g: nat, k: nat :: Placed(planned, cs[i].record, g, k) && Signatures(cs)[g] == cs[i].signature
  }

  ghost predicate OnlyRecords(cs: seq<Candidate>, planned: seq<Planned>)
    requires |planned| == |Signatures(cs)|
  {
    forall g: nat, k: nat, r :: Placed(planned, r, g, k) ==> Candidate(r, Signatures(cs)[g]) in cs
  }

  predicate Before(cs: seq<Candidate>, a: string, b: string) {
    forall i, j :: 0 <= i < |cs| && 0 <= j < |cs| && cs[i].record == a && cs[j].record == b ==> i < j
  }

  /** Members keep the scan order, and groups the order of their first members. */
  lemma PlanKeepsOrder(d: Digests, config: int, cs: seq<Candidate>, planned: seq<Planned>)
    requires Plan(d, config, cs, planned) && DistinctRecords(cs)
    ensures forall g, k, l :: 0 <= g < |planned| && 0 <= k < l < |planned[g].members| ==> Before(cs, planned[g].members[k], planned[g].members[l])
    ensures forall g, h :: 0 <= g < h < |planned| && planned[g].members != [] && planned[h].members != [] ==>
      Before(cs, planned[g].members[0], planned[h].members[0])
  {
    forall g, k, l | 0 <= g < |planned| && 0 <= k < l < |planned[g].members| ensures Before(cs, planned[g].members[k], planned[g].members[l]) {
      forall i, j | 0 <= i < |cs| && 0 <= j < |cs| && cs[i].record == planned[g].members[k] && cs[j].record == planned[g].members[l] ensures i < j {
        RecordsInOrder(cs, Signatures(cs)[g], k, l, i, j);
      }
    }
    forall g, h | 0 <= g < h < |planned| && planned[g].members != [] && planned[h].members != [] ensures Before(cs, planned[g].members[0], planned[h].members[0]) {
      forall i, j | 0 <= i < |cs| && 0 <= j < |cs| && cs[i].record == planned[g].members[0] && cs[j].record == planned[h].members[0] ensures i < j {
        SignaturesInOrder(cs, g, h, i, j);
      }
    }
  }

  lemma {:induction false} RecordsInOrder(cs: seq<Candidate>, signature: string, k: nat, l: nat, i: int, j: int)
    requires DistinctRecords(cs) && k < l < |Records(cs, signature)| && 0 <= i < |cs| && 0 <= j < |cs|
    requires cs[i].record == Records(cs, signature)[k] && cs[j].record == Records(cs, signature)[l]
    ensures i < j
    decreases |cs|
  {
    var n := |cs| - 1;
    var init := cs[..n];
    RecordsComplete(init, signature);
    if l < |Records(init, signature)| {
      assert Records(init, signature)[l] in Records(init, signature) && Records(init, signature)[k] in Records(init, signature);
      var x :| 0 <= x < n && init[x] == Candidate(cs[j].record, signature);
      var y :| 0 <= y < n && init[y] == Candidate(cs[i].record, signature);
      RecordsInOrder(init, signature, k, l, y, x);
    } else {
      assert Records(init, signature)[k] in Records(init, signature);
      var y :| 0 <= y < n && init[y] == Candidate(cs[i].record, signature);
      assert cs[j].record == cs[n].record;
    }
  }

  /** The first record of a signature that is already there stays the first. */
  lemma {:induction false} SignaturesInOrder(cs: seq<Candidate>, g: nat, h: nat, i: int, j: int)
    requires DistinctRecords(cs) && g < h < |Signatures(cs)| && 0 <= i < |cs| && 0 <= j < |cs|
    requires Records(cs, Signatures(cs)[g]) != [] && Records(cs, Signatures(cs)[h]) != []
    requires cs[i].record == Records(cs, Signatures(cs)[g])[0] && cs[j].record == Records(cs, Signatures(cs)[h])[0]
    ensures i < j
    decreases |cs|
  {
    var n := |cs| - 1;
    var init := cs[..n];
    var a, b := Signatures(cs)[g], Signatures(cs)[h];
    FirstStays(cs, g);
    RecordsComplete(init, a);
    var y :| 0 <= y < n && init[y] == Candidate(cs[i].record, a);
    if h < |Signatures(init)| {
      FirstStays(cs, h);
      RecordsComplete(init, b);
      var x :| 0 <= x < n && init[x] == Candidate(cs[j].record, b);
      SignaturesInOrder(init, g, h, y, x);
    } else {
      assert b == cs[n].signature && b !in Signatures(init);
      NoneYet(init, b);
      assert cs[j].record == cs[n].record;
    }
  }

  lemma FirstStays(cs: seq<Candidate>, g: nat)
    requires cs != [] && g < |Signatures(cs[..|cs| - 1])|
    ensures var init := cs[..|cs| - 1];
      && g < |Signatures(cs)| && Signatures(cs)[g] == Signatures(init)[g]
      && Records(init, Signatures(cs)[g]) != [] && Records(cs, Signatures(cs)[g]) != []
      && Records(cs, Signatures(cs)[g])[0] == Records(init, Signatures(cs)[g])[0]
      && Records(init, Signatures(cs)[g])[0] in Records(init, Signatures(cs)[g])
  {
    var init := cs[..|cs| - 1];
    SignaturesComplete(init);
    var s := Signatures(init)[g];
    assert s in Signatures(init);
    var i :| 0 <= i < |init| && init[i].signature == s;
    RecordsComplete(init, s);
    assert init[i].record in Records(init, s);
  }

  /** The plan partitions the records: each has one place, in the group of its own
      signature; no group is empty, and nothing but the records is placed. */
  lemma PlanPartitions(d: Digests, config: int, cs: seq<Candidate>, planned: seq<Planned>)
    requires Plan(d, config, cs, planned) && DistinctRecords(cs)
    ensures forall i :: 0 <= i < |cs| ==> AtHome(cs, planned, i)
    ensures forall r, g: nat, k: nat, h: nat, l: nat :: Placed(planned, r, g, k) && Placed(planned, r, h, l) ==> g == h && k == l
    ensures OnlyRecords(cs, planned)
    ensures forall g :: 0 <= g < |planned| ==> planned[g].members != []
  {
    forall g | 0 <= g < |planned| ensures planned[g].members != [] { NoGroupEmpty(d, cs, planned, g); }
    forall i | 0 <= i < |cs| ensures AtHome(cs, planned, i) { HasPlace(d, cs, planned, i); }
    forall g: nat, k: nat, r | Placed(planned, r, g, k) ensures Candidate(r, Signatures(cs)[g]) in cs {
      RecordsComplete(cs, Signatures(cs)[g]);
      assert r in Records(cs, Signatures(cs)[g]);
    }
    forall r, g: nat, k: nat, h: nat, l: nat | Placed(planned, r, g, k) && Placed(planned, r, h, l) ensures g == h && k == l {
      OnePlace(d, config, cs, planned, r, g, k, h, l);
    }
  }

  lemma NoGroupEmpty(d: Digests, cs: seq<Candidate>, planned: seq<Planned>, g: nat)
    requires Collected(d, cs, planned) && g < |planned|
    ensures planned[g].members != []
  {
    SignaturesComplete(cs);
    assert Signatures(cs)[g] in Signatures(cs);
    RecordsComplete(cs, Signatures(cs)[g]);
  }

  lemma HasPlace(d: Digests, cs: seq<Candidate>, planned: seq<Planned>, i: nat)
    requires Collected(d, cs, planned) && i < |cs|
    ensures AtHome(cs, planned, i)
  {
    SignaturesComplete(cs);
    var g: nat :| g < |Signatures(cs)| && Signatures(cs)[g] == cs[i].signature;
    RecordsComplete(cs, cs[i].signature);
    var k: nat :| k < |Records(cs, cs[i].signature)| && Records(cs, cs[i].signature)[k] == cs[i].record;
    assert Placed(planned, cs[i].record, g, k);
  }

  lemma OnePlace(d: Digests, config: int, cs: seq<Candidate>, planned: seq<Planned>, r: string, g: nat, k: nat, h: nat, l: nat)
    requires Plan(d, config, cs, planned) && DistinctRecords(cs)
    requires Placed(planned, r, g, k) && Placed(planned, r, h, l)
    ensures g == h && k == l
  {
    SignaturesComplete(cs);
    RecordsComplete(cs, Signatures(cs)[g]);
    RecordsComplete(cs, Signatures(cs)[h]);
    assert planned[g].members[k] in Records(cs, Signatures(cs)[g]);
    assert planned[h].members[l] in Records(cs, Signatures(cs)[h]);
    var i :| 0 <= i < |cs| && cs[i] == Candidate(r, Signatures(cs)[g]);
    var j :| 0 <= j < |cs| && cs[j] == Candidate(r, Signatures(cs)[h]);
    assert i == j;
  }

  const ERROR_PREFIX := "error:"

  /** A record whose signature could not be computed gets a group to itself, as long as
      no computed signature reads like the substitute. */
  lemma FailureIsAlone(d: Digests, config: int, cs: seq<Candidate>, planned: seq<Planned>, failed: set<string>, at: nat)
    requires Plan(d, config, cs, planned) && DistinctRecords(cs) && at < |cs| && cs[at].record in failed
    requires forall i :: 0 <= i < |cs| ==>
      if cs[i].record in failed then cs[i].signature == ERROR_PREFIX + cs[i].record else !(ERROR_PREFIX <= cs[i].signature)
    ensures exists g :: 0 <= g < |planned| && planned[g].members == [cs[at].record]
  {
    var signature := cs[at].signature;
    SignaturesComplete(cs);
    RecordsComplete(cs, signature);
    var g :| 0 <= g < |Signatures(cs)| && Signatures(cs)[g] == signature;
    forall k | 0 <= k < |planned[g].members| ensures planned[g].members[k] == cs[at].record {
      var i :| 0 <= i < |cs| && cs[i] == Candidate(planned[g].members[k], signature);
      assert cs[i].signature[|ERROR_PREFIX|..] == cs[i].record;
      assert cs[at].signature[|ERROR_PREFIX|..] == cs[at].record;
    }
    assert cs[at].record in planned[g].members;
    var ms := planned[g].members;
    assert ms[0] == ms[|ms| - 1];
  }
}
