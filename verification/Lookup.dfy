/** Reading the task rows of the records in hand, in slices and pages. */
module Lookup {
  import opened Options

  const CHUNK := 500
  const PAGE := 100

  datatype Row = Row(id: int, config: int, record: string)

  predicate Wanted(row: Row, config: int, values: seq<string>) {
    row.config == config && row.record in values
  }

  /** What the query selects, in the order the database lists it. */
  function Selected(table: seq<Row>, config: int, values: seq<string>): seq<Row> {
    if table == [] then []
    else
      var before := Selected(table[..|table| - 1], config, values);
      if Wanted(table[|table| - 1], config, values) then before + [table[|table| - 1]] else before
  }

  function Page(rows: seq<Row>, page: nat): (batch: seq<Row>)
    requires page >= 1
    ensures |batch| <= PAGE
  {
    var from, to := (page - 1) * PAGE, page * PAGE;
    if |rows| <= from then [] else rows[from..if |rows| < to then |rows| else to]
  }

  function MaxPages(n: nat): nat { (n + PAGE - 1) / PAGE + 1 }

  predicate Distinct(xs: seq<string>) {
    forall i, j :: 0 <= i < j < |xs| ==> xs[i] != xs[j]
  }

  /** (config, record) is unique. */
  ghost predicate UniqueKey(table: seq<Row>) {
    forall i, j :: 0 <= i < j < |table| ==> !(table[i].config == table[j].config && table[i].record == table[j].record)
  }

  lemma {:induction false} SelectedIsWanted(table: seq<Row>, config: int, values: seq<string>)
    ensures forall row :: row in Selected(table, config, values) <==> row in table && Wanted(row, config, values)
    ensures UniqueKey(table) ==>
      forall i, j :: 0 <= i < j < |Selected(table, config, values)| ==> Selected(table, config, values)[i].record != Selected(table, config, values)[j].record
  {
    if table == [] {
    } else {
      var init, last := table[..|table| - 1], table[|table| - 1];
      SelectedIsWanted(init, config, values);
      assert table == init + [last];
      var before := Selected(init, config, values);
      forall i | UniqueKey(table) && Wanted(last, config, values) && 0 <= i < |before| ensures before[i].record != last.record {
        assert before[i] in init;
        var k :| 0 <= k < |init| && init[k] == before[i];
        assert table[k] == before[i] && table[|table| - 1] == last;
      }
    }
  }

  function RecordsOf(rows: seq<Row>): set<string> {
    set row | row in rows :: row.record
  }

  lemma {:induction false} AsManyRecords(rows: seq<Row>)
    requires forall i, j :: 0 <= i < j < |rows| ==> rows[i].record != rows[j].record
    ensures |RecordsOf(rows)| == |rows|
  {
    if rows == [] {
      assert RecordsOf(rows) == {};
    } else {
      var init, last := rows[..|rows| - 1], rows[|rows| - 1];
      AsManyRecords(init);
      assert rows == init + [last];
      assert RecordsOf(rows) == RecordsOf(init) + {last.record};
    }
  }

  lemma {:induction false} AtMostLength(xs: seq<string>)
    ensures |set x | x in xs| <= |xs|
  {
    if xs == [] {
      assert (set x | x in xs) == {};
    } else {
      var init, last := xs[..|xs| - 1], xs[|xs| - 1];
      AtMostLength(init);
      assert xs == init + [last];
      assert (set x | x in xs) == (set x | x in init) + {last};
    }
  }

  lemma Sub(a: set<string>, b: set<string>)
    requires a <= b
    ensures |a| <= |b|
  {
    assert b == a + (b - a);
  }

  /** A slice finds no more rows than it names records. */
  lemma NoMoreThanAsked(table: seq<Row>, config: int, values: seq<string>)
    requires UniqueKey(table)
    ensures |Selected(table, config, values)| <= |values|
  {
    var rows := Selected(table, config, values);
    SelectedIsWanted(table, config, values);
    AsManyRecords(rows);
    AtMostLength(values);
    Sub(RecordsOf(rows), set x | x in values);
  }

  /** So the page guard never fires. */
  lemma GuardHolds(table: seq<Row>, config: int, values: seq<string>)
    requires UniqueKey(table)
    ensures |Selected(table, config, values)| < PAGE * MaxPages(|values|)
  {
    NoMoreThanAsked(table, config, values);
  }

  method UniqueRecordIds(ids: seq<string>) returns (unique: seq<string>)
    ensures Distinct(unique) && forall r :: r in unique <==> r in ids && r != ""
  {
    unique := [];
    var seen: set<string> := {};
    var i := 0;
    while i < |ids|
      invariant 0 <= i <= |ids| && Distinct(unique)
      invariant forall r :: r in seen <==> r in unique
      invariant forall r :: r in unique <==> r in ids[..i] && r != ""
    {
      assert ids[..i + 1] == ids[..i] + [ids[i]];
      if ids[i] != "" && ids[i] !in seen {
        seen := seen + {ids[i]};
        unique := unique + [ids[i]];
      }
      i := i + 1;
    }
    assert ids[..i] == ids;
  }

  /** All pages of one slice, or a refusal when the last page expected is still full. */
  method LoadSlice(table: seq<Row>, config: int, values: seq<string>) returns (rows: Option<seq<Row>>)
    ensures rows.Some? <==> |Selected(table, config, values)| < 100 * ((|values| + 99) / 100 + 1)
    ensures rows.Some? ==> rows.value == Selected(table, config, values)
  {
    var all := Selected(table, config, values);
    var read: seq<Row> := [];
    var page := 1;
    var last := MaxPages(|values|);
    while page <= last
      invariant 1 <= page <= last
      invariant |all| >= (page - 1) * PAGE && read == all[..(page - 1) * PAGE]
      decreases last - page
    {
      var batch := Page(all, page);
      read := read + batch;
      if |batch| < PAGE {
        assert read == all;
        return Some(read);
      }
      assert read == all[..page * PAGE];
      if page >= last { return None; }
      page := page + 1;
    }
  }

  /** The map covers exactly the requested records that have a row, each with such a row. */
  ghost predicate Covers(table: seq<Row>, config: int, records: seq<string>, found: map<string, Row>) {
    && (forall r :: r in found ==> found[r] in table && found[r].config == config && found[r].record == r && r in records)
    && (forall row :: row in table && Wanted(row, config, records) ==> row.record in found)
  }

  method Insert(table: seq<Row>, config: int, done: seq<string>, slice: seq<string>, rows: seq<Row>, was: map<string, Row>) returns (found: map<string, Row>)
    requires Covers(table, config, done, was) && rows == Selected(table, config, slice)
    ensures Covers(table, config, done + slice, found)
  {
    found := was;
    SelectedIsWanted(table, config, slice);
    var i := 0;
    while i < |rows|
      invariant 0 <= i <= |rows|
      invariant forall r :: r in found ==> found[r] in table && found[r].config == config && found[r].record == r && r in done + slice
      invariant forall r :: r in was ==> r in found
      invariant forall row :: row in rows[..i] ==> row.record in found
    {
      assert rows[i] in rows;
      assert rows[..i + 1] == rows[..i] + [rows[i]];
      found := found[rows[i].record := rows[i]];
      i := i + 1;
    }
    assert rows[..i] == rows;
  }

  /** Any amount of history, duplicates and blanks: the requested rows, all of them, or a
      refusal, which a unique key rules out. */
  method LoadTasksByRecord(table: seq<Row>, config: int, ids: seq<string>) returns (found: Option<map<string, Row>>)
    ensures found.Some? ==>
      && (forall r :: r in found.value ==> found.value[r] in table && found.value[r].config == config && found.value[r].record == r && r in ids && r != "")
      && (forall row :: row in table && row.config == config && row.record in ids && row.record != "" ==> row.record in found.value)
    ensures UniqueKey(table) ==> found.Some?
  {
    var unique := UniqueRecordIds(ids);
    var byRecord: map<string, Row> := map[];
    var at := 0;
    while at < |unique|
      invariant 0 <= at <= |unique| && Covers(table, config, unique[..at], byRecord)
    {
      var next := if at + CHUNK < |unique| then at + CHUNK else |unique|;
      var slice := unique[at..next];
      assert unique[..next] == unique[..at] + slice;
      if UniqueKey(table) { GuardHolds(table, config, slice); }
      var rows := LoadSlice(table, config, slice);
      if rows.None? { return None; }
      byRecord := Insert(table, config, unique[..at], slice, rows.value, byRecord);
      at := next;
    }
    assert unique[..at] == unique;
    return Some(byRecord);
  }

  /** With a unique key there is only one map it can be. */
  lemma OneLookup(table: seq<Row>, config: int, records: seq<string>, a: map<string, Row>, b: map<string, Row>)
    requires UniqueKey(table) && Covers(table, config, records, a) && Covers(table, config, records, b)
    ensures a == b
  {
    forall r ensures r in a <==> r in b { }
    forall r | r in a ensures a[r] == b[r] {
      var i :| 0 <= i < |table| && table[i] == a[r];
      var j :| 0 <= j < |table| && table[j] == b[r];
    }
  }
}
