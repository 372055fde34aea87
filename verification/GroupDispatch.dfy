/** Reading the members of a group before its form is built: which loops reach the
    dispatch, and what they have checked by then. */
module GroupDispatch {
  import opened Options
  import opened Tables
  import opened OptionMerge

  /** `Trouble` of an outside call: final, or worth another round. */
  datatype Files = Moved | FatalFiles | RetryFiles

  /** What reading one member's record comes to. `options` is absent when its outside
      options cannot be resolved, `digest` when no signature can be computed. */
  datatype Reading =
    | Unreadable
    | Unreachable
    | Gone
    | Garbled
    | Row(options: Option<seq<Widget>>, digest: Option<string>, files: Files)

  datatype Member = Member(id: int, record: string, reading: Reading)

  datatype Gathered = Go(rows: seq<string>) | Pause | Again

  /** The running comparison of the members' digests with the one stored at seeding. */
  method VerifySignature(digest: Option<string>, stored: string, seen: seq<string>) returns (same: bool, digests: seq<string>)
    ensures digests == if digest.Some? then seen + [digest.value] else seen
    ensures same <==> digest.Some? && digests[0] == stored && forall i :: 0 <= i < |digests| ==> digests[i] == digests[0]
  {
    if digest.None? { return false, seen; }
    digests := seen + [digest.value];
    var i := 0;
    while i < |digests|
      invariant 0 <= i <= |digests| && forall j :: 0 <= j < i ==> digests[j] == digests[0]
    {
      if digests[i] != digests[0] { return false, digests; }
      i := i + 1;
    }
    same := digests[0] == stored;
  }

  /** A member whose record went away after the instance was made; never the leader. */
  predicate Droppable(m: Member, leader: int, coded: bool) {
    m.reading.Unreadable? && coded && m.id != leader
  }

  /** The member's record is in hand and passes every check that looks at it alone. */
  predicate Fit(m: Member, coded: bool, check: Option<string>) {
    && m.reading.Row? && m.reading.options.Some?
    && (check.Some? ==> m.reading.digest == check)
    && (!coded ==> m.reading.files == Moved)
  }

  function FitRecords(ms: seq<Member>): seq<string> {
    if ms == [] then []
    else FitRecords(ms[..|ms| - 1]) + (if ms[|ms| - 1].reading.Row? then [ms[|ms| - 1].record] else [])
  }

  function Dropped(ms: seq<Member>): seq<int> {
    if ms == [] then []
    else Dropped(ms[..|ms| - 1]) + (if ms[|ms| - 1].reading.Unreadable? then [ms[|ms| - 1].id] else [])
  }

  /** The option maps of the members read so far. */
  function Offered(ms: seq<Member>): seq<seq<Widget>> {
    if ms == [] then []
    else
      var last := ms[|ms| - 1].reading;
      Offered(ms[..|ms| - 1]) + (if last.Row? && last.options.Some? then [last.options.value] else [])
  }

  predicate AllUsable(ms: seq<Member>, leader: int, coded: bool, check: Option<string>) {
    forall i :: 0 <= i < |ms| ==> Fit(ms[i], coded, check) || Droppable(ms[i], leader, coded)
  }

  /** Everything the loop has established before the dispatch may happen. */
  predicate Cleared(pool: seq<Widget>, ms: seq<Member>, leader: int, coded: bool, check: Option<string>) {
    && AllUsable(ms, leader, coded, check)
    && FitRecords(ms) != []
    && Functional(Facts(pool) + Said(Ids(pool), Offered(ms)))
  }

  lemma Grow(ms: seq<Member>, i: nat)
    requires i < |ms|
    ensures ms[..i + 1][..|ms[..i + 1]| - 1] == ms[..i] && ms[..i + 1][|ms[..i + 1]| - 1] == ms[i]
  {
  }

  lemma SaidMore(ids: seq<string>, offered: seq<seq<Widget>>, more: seq<Widget>)
    ensures Said(ids, offered + [more]) == Said(ids, offered) + On(ids, more)
  {
    assert forall m :: m in offered + [more] <==> m in offered || m == more;
  }

  lemma {:induction false} OfferedPrefix(ids: seq<string>, ms: seq<Member>, i: nat)
    requires i <= |ms|
    ensures Said(ids, Offered(ms[..i])) <= Said(ids, Offered(ms))
    decreases |ms| - i
  {
    if i < |ms| {
      Grow(ms, i);
      OfferedPrefix(ids, ms, i + 1);
      if ms[i].reading.Row? && ms[i].reading.options.Some? {
        SaidMore(ids, Offered(ms[..i]), ms[i].reading.options.value);
      }
    } else {
      assert ms[..i] == ms;
    }
  }

  lemma ConflictSpoils(pool: seq<Widget>, ms: seq<Member>, i: nat, leader: int, coded: bool, check: Option<string>)
    requires i < |ms| && ms[i].reading.Row? && ms[i].reading.options.Some?
    requires !Functional(Facts(pool) + Said(Ids(pool), Offered(ms[..i])) + On(Ids(pool), ms[i].reading.options.value))
    ensures !Cleared(pool, ms, leader, coded, check)
  {
    Grow(ms, i);
    SaidMore(Ids(pool), Offered(ms[..i]), ms[i].reading.options.value);
    OfferedPrefix(Ids(pool), ms, i + 1);
    NotFunctional(Facts(pool) + Said(Ids(pool), Offered(ms[..i + 1])), Facts(pool) + Said(Ids(pool), Offered(ms)));
  }

  /** All digests so far are the stored one. */
  predicate Stored(digests: seq<string>, check: Option<string>) {
    check.Some? ==> forall i :: 0 <= i < |digests| ==> digests[i] == check.value
  }

  datatype Step = Taken | StopPause | StopAgain

  /** One member whose record was read: options, signature, attachments, in this order. */
  method TakeRow(pooled: array<Widget>, m: Member, coded: bool, check: Option<string>, seen: seq<string>)
    returns (step: Step, digests: seq<string>)
    requires Distinct(Ids(pooled[..])) && m.reading.Row? && Stored(seen, check)
    modifies pooled
    ensures Ids(pooled[..]) == old(Ids(pooled[..])) && (step.Taken? ==> Stored(digests, check))
    ensures step.Taken? <==> Fit(m, coded, check) && Functional(old(Facts(pooled[..])) + On(old(Ids(pooled[..])), m.reading.options.value))
    ensures step.Taken? ==> GrewBy(old(pooled[..]), pooled[..], On(old(Ids(pooled[..])), m.reading.options.value))
    ensures step.StopAgain? <==>
      && m.reading.options.Some? && Functional(old(Facts(pooled[..])) + On(old(Ids(pooled[..])), m.reading.options.value))
      && (check.Some? ==> m.reading.digest == check) && !coded && m.reading.files == RetryFiles
  {
    digests := seen;
    if m.reading.options.None? { return StopPause, digests; }
    var merged := MergeOptionMaps(pooled, m.reading.options.value);
    if !merged { return StopPause, digests; }
    if check.Some? {
      var same;
      same, digests := VerifySignature(m.reading.digest, check.value, seen);
      if !same { return StopPause, digests; }
      assert digests[|seen|] == m.reading.digest.value;
    }
    if !coded && m.reading.files != Moved {
      return if m.reading.files == FatalFiles then StopPause else StopAgain, digests;
    }
    return Taken, digests;
  }

  /** What the loop knows after `i` members. */
  ghost predicate Progress(
    pool: seq<Widget>, now: seq<Widget>, ms: seq<Member>, leader: int, coded: bool, check: Option<string>,
    rows: seq<string>, dropped: seq<int>, missing: seq<string>, i: nat)
  {
    && i <= |ms|
    && GrewBy(pool, now, Said(Ids(pool), Offered(ms[..i])))
    && (missing == [] ==> AllUsable(ms[..i], leader, coded, check))
    && (missing != [] ==> exists j :: 0 <= j < i && ms[j].reading.Gone?)
    && rows == FitRecords(ms[..i]) && dropped == Dropped(ms[..i])
  }

  lemma Passes(
    pool: seq<Widget>, now: seq<Widget>, ms: seq<Member>, leader: int, coded: bool, check: Option<string>,
    rows: seq<string>, dropped: seq<int>, missing: seq<string>, i: nat, after: seq<Widget>)
    requires i < |ms| && Progress(pool, now, ms, leader, coded, check, rows, dropped, missing, i)
    requires Fit(ms[i], coded, check) && GrewBy(now, after, On(Ids(pool), ms[i].reading.options.value))
    ensures Progress(pool, after, ms, leader, coded, check, rows + [ms[i].record], dropped, missing, i + 1)
  {
    Grow(ms, i);
    var more := ms[i].reading.options.value;
    SaidMore(Ids(pool), Offered(ms[..i]), more);
    GrewTwice(pool, now, after, Said(Ids(pool), Offered(ms[..i])), On(Ids(pool), more));
    UsableMore(ms, i, leader, coded, check);
  }

  lemma GrewTwice(start: seq<Widget>, mid: seq<Widget>, end: seq<Widget>, a: set<Fact>, b: set<Fact>)
    requires GrewBy(start, mid, a) && GrewBy(mid, end, b)
    ensures GrewBy(start, end, a + b)
  {
    assert Facts(end) == Facts(start) + (a + b);
  }

  lemma UsableMore(ms: seq<Member>, i: nat, leader: int, coded: bool, check: Option<string>)
    requires i < |ms| && (Fit(ms[i], coded, check) || Droppable(ms[i], leader, coded))
    ensures AllUsable(ms[..i], leader, coded, check) ==> AllUsable(ms[..i + 1], leader, coded, check)
  {
  }

  lemma Skips(
    pool: seq<Widget>, now: seq<Widget>, ms: seq<Member>, leader: int, coded: bool, check: Option<string>,
    rows: seq<string>, dropped: seq<int>, missing: seq<string>, i: nat)
    requires i < |ms| && Progress(pool, now, ms, leader, coded, check, rows, dropped, missing, i)
    ensures Droppable(ms[i], leader, coded) ==>
      Progress(pool, now, ms, leader, coded, check, rows, dropped + [ms[i].id], missing, i + 1)
    ensures ms[i].reading.Gone? ==>
      Progress(pool, now, ms, leader, coded, check, rows, dropped, missing + [ms[i].record], i + 1)
  {
    Grow(ms, i);
  }

  /** The options of member `i` agree with the pool and with those of the members before. */
  predicate OptionsAgree(pool: seq<Widget>, ms: seq<Member>, i: nat)
    requires i < |ms|
  {
    && ms[i].reading.Row? && ms[i].reading.options.Some?
    && Functional(Facts(pool) + Said(Ids(pool), Offered(ms[..i])) + On(Ids(pool), ms[i].reading.options.value))
  }

  /** The loop goes on after member `i`. */
  predicate GoesPast(pool: seq<Widget>, ms: seq<Member>, i: nat, leader: int, coded: bool, check: Option<string>)
    requires i < |ms|
  {
    match ms[i].reading
    case Unreadable => coded && ms[i].id != leader
    case Unreachable => false
    case Gone => true
    case Garbled => false
    case Row(_, digest, files) => OptionsAgree(pool, ms, i) && (check.Some? ==> digest == check) && (coded || files == Moved)
  }

  /** Member `i` may read better in another round: the record could not be fetched for now, or
      all is well but for attachments that could not be moved for now. */
  predicate WorthAnother(pool: seq<Widget>, ms: seq<Member>, i: nat, coded: bool, check: Option<string>)
    requires i < |ms|
  {
    match ms[i].reading
    case Unreachable => true
    case Row(_, digest, files) => OptionsAgree(pool, ms, i) && (check.Some? ==> digest == check) && !coded && files == RetryFiles
    case _ => false
  }

  /** The loop goes past the first `n` members, and no further. */
  predicate StopsAfter(pool: seq<Widget>, ms: seq<Member>, n: nat, leader: int, coded: bool, check: Option<string>) {
    && n <= |ms| && (forall i :: 0 <= i < n ==> GoesPast(pool, ms, i, leader, coded, check))
    && (n < |ms| ==> !GoesPast(pool, ms, n, leader, coded, check))
  }

  /** The next member, its record having been read. */
  method TakeNext(
    pooled: array<Widget>, ghost pool: seq<Widget>, ms: seq<Member>, i: nat, ghost leader: int, coded: bool, check: Option<string>, seen: seq<string>,
    ghost rows: seq<string>, ghost dropped: seq<int>, ghost missing: seq<string>)
    returns (step: Step, digests: seq<string>)
    requires i < |ms| && ms[i].reading.Row? && Distinct(Ids(pooled[..])) && Stored(seen, check)
    requires Progress(pool, pooled[..], ms, leader, coded, check, rows, dropped, missing, i)
    modifies pooled
    ensures step.Taken? ==> Stored(digests, check)
    ensures step.Taken? ==> Progress(pool, pooled[..], ms, leader, coded, check, rows + [ms[i].record], dropped, missing, i + 1)
    ensures !step.Taken? ==> !Cleared(pool, ms, leader, coded, check)
    ensures step.Taken? <==> GoesPast(pool, ms, i, leader, coded, check)
    ensures step.StopAgain? <==> WorthAnother(pool, ms, i, coded, check)
  {
    var m := ms[i];
    ghost var now := pooled[..];
    if m.reading.options.Some? && !Functional(Facts(now) + On(Ids(now), m.reading.options.value)) {
      ConflictSpoils(pool, ms, i, leader, coded, check);
    }
    step, digests := TakeRow(pooled, m, coded, check, seen);
    if step.Taken? { Passes(pool, now, ms, leader, coded, check, rows, dropped, missing, i, pooled[..]); }
  }

  lemma Spoils(pool: seq<Widget>, ms: seq<Member>, i: nat, leader: int, coded: bool, check: Option<string>)
    requires i < |ms| && !Fit(ms[i], coded, check) && !Droppable(ms[i], leader, coded)
    ensures !Cleared(pool, ms, leader, coded, check)
  {
  }

  lemma AllSeen(
    pool: seq<Widget>, now: seq<Widget>, ms: seq<Member>, leader: int, coded: bool, check: Option<string>,
    rows: seq<string>, dropped: seq<int>, missing: seq<string>)
    requires Distinct(Ids(now)) && Progress(pool, now, ms, leader, coded, check, rows, dropped, missing, |ms|)
    ensures missing == [] && rows != [] <==> Cleared(pool, ms, leader, coded, check)
    ensures rows == FitRecords(ms) && dropped == Dropped(ms) && GrewBy(pool, now, Said(Ids(pool), Offered(ms)))
  {
    assert ms[..|ms|] == ms;
    PoolIsFunctional(now);
  }

  /** One member of the loop; `stop` is the result if the loop stops here. */
  method Look(
    pooled: array<Widget>, ghost pool: seq<Widget>, ms: seq<Member>, i: nat, leader: int, coded: bool, check: Option<string>,
    digests: seq<string>, rows: seq<string>, dropped: seq<int>, missing: seq<string>)
    returns (stop: Option<Gathered>, digestsNow: seq<string>, rowsNow: seq<string>, droppedNow: seq<int>, missingNow: seq<string>)
    requires i < |ms| && Distinct(Ids(pooled[..])) && Stored(digests, check)
    requires Progress(pool, pooled[..], ms, leader, coded, check, rows, dropped, missing, i)
    modifies pooled
    ensures stop.None? <==> GoesPast(pool, ms, i, leader, coded, check)
    ensures stop.None? ==> Stored(digestsNow, check) && Progress(pool, pooled[..], ms, leader, coded, check, rowsNow, droppedNow, missingNow, i + 1)
    ensures stop.Some? ==> !stop.value.Go? && (stop.value.Again? <==> WorthAnother(pool, ms, i, coded, check)) && !Cleared(pool, ms, leader, coded, check)
    ensures stop.Some? ==> droppedNow == dropped
  {
    var m := ms[i];
    stop, digestsNow, rowsNow, droppedNow, missingNow := None, digests, rows, dropped, missing;
    Skips(pool, pooled[..], ms, leader, coded, check, rows, dropped, missing, i);
    if m.reading.Row? {
      var step;
      step, digestsNow := TakeNext(pooled, pool, ms, i, leader, coded, check, digests, rows, dropped, missing);
      if step.Taken? { rowsNow := rows + [m.record]; } else { stop := Some(if step.StopPause? then Pause else Again); }
    } else if m.reading.Gone? {
      missingNow := missing + [m.record];
    } else if m.reading.Unreadable? && coded && m.id != leader {
      droppedNow := dropped + [m.id];
    } else {
      Spoils(pool, ms, i, leader, coded, check);
      stop := Some(if m.reading.Unreachable? then Again else Pause);
    }
  }

  /** The member loop: it reaches the dispatch exactly when every member is fit or may be
      dropped, one is left, the option maps agree, and no record is missing; a signature
      check that is on then held for every member, and the pool is the union. Otherwise it asks
      for another round exactly if the member that stops it, the first that can, is worth one. */
  method Gather(pooled: array<Widget>, leader: int, coded: bool, check: Option<string>, ms: seq<Member>)
    returns (out: Gathered, dropped: seq<int>, ghost passed: nat)
    requires Distinct(Ids(pooled[..]))
    modifies pooled
    ensures StopsAfter(old(pooled[..]), ms, passed, leader, coded, check) && dropped == Dropped(ms[..passed])
    ensures out.Again? <==> passed < |ms| && WorthAnother(old(pooled[..]), ms, passed, coded, check)
    ensures out.Go? <==> Cleared(old(pooled[..]), ms, leader, coded, check)
    ensures out.Go? ==> out.rows == FitRecords(ms) && dropped == Dropped(ms)
    ensures out.Go? ==> GrewBy(old(pooled[..]), pooled[..], Said(old(Ids(pooled[..])), Offered(ms)))
  {
    ghost var pool := pooled[..];
    var rows: seq<string>, missing: seq<string>, digests: seq<string> := [], [], [];
    dropped, passed := [], 0;
    assert Said(Ids(pool), []) == {};
    var i := 0;
    while i < |ms|
      invariant 0 <= i <= |ms| && passed == i && Stored(digests, check) && Ids(pooled[..]) == Ids(pool)
      invariant Progress(pool, pooled[..], ms, leader, coded, check, rows, dropped, missing, i)
      invariant forall j :: 0 <= j < i ==> GoesPast(pool, ms, j, leader, coded, check)
    {
      var stop;
      stop, digests, rows, dropped, missing := Look(pooled, pool, ms, i, leader, coded, check, digests, rows, dropped, missing);
      if stop.Some? { return stop.value, dropped, i; }
      i, passed := i + 1, i + 1;
    }
    AllSeen(pool, pooled[..], ms, leader, coded, check, rows, dropped, missing);
    assert ms[..i] == ms;
    if missing != [] || rows == [] { return Pause, dropped, i; }
    return Go(rows), dropped, i;
  }
}
