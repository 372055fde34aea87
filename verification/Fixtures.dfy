/** Pieces of the spreadsheet writer: column names, the shared string table, escaping. */
module Fixtures {
  // ----- column names ---------------------------------------------------------

  function Pow26(n: nat): nat { if n == 0 then 1 else 26 * Pow26(n - 1) }

  predicate IsLetter(c: char) { 'A' <= c <= 'Z' }

  predicate IsWord(w: string) { w != "" && forall i :: 0 <= i < |w| ==> IsLetter(w[i]) }

  function Letter(k: nat): (c: char)
    requires k < 26
    ensures IsLetter(c) && c as int - 'A' as int == k
  {
    ('A' as int + k) as char
  }

  /** A word read as a number in bijective base 26: A is 1, Z is 26. */
  function Value(w: string): nat
    requires forall i :: 0 <= i < |w| ==> IsLetter(w[i])
  {
    if w == "" then 0
    else
      assert IsLetter(w[|w| - 1]);
      26 * Value(w[..|w| - 1]) + (w[|w| - 1] as int - 'A' as int + 1)
  }

  lemma {:induction false} ValueFromLeft(c: char, w: string)
    requires IsLetter(c) && forall i :: 0 <= i < |w| ==> IsLetter(w[i])
    ensures Value([c] + w) == (c as int - 'A' as int + 1) * Pow26(|w|) + Value(w)
  {
    if w == "" {
      assert [c] + w == [c];
      assert [c][..0] == "";
    } else {
      var init := w[..|w| - 1];
      ValueFromLeft(c, init);
      assert ([c] + w)[..|[c] + w| - 1] == [c] + init;
    }
  }

  /** What is left to write is the number's leading part. */
  predicate Written(column: nat, index: nat, letters: string) {
    (forall i :: 0 <= i < |letters| ==> IsLetter(letters[i])) && index * Pow26(|letters|) + Value(letters) == column + 1
  }

  lemma WriteOne(column: nat, index: nat, letters: string)
    requires Written(column, index, letters) && index > 0
    ensures Written(column, (index - 1) / 26, [Letter((index - 1) % 26)] + letters)
  {
    var q, r, p := (index - 1) / 26, (index - 1) % 26, Pow26(|letters|);
    ValueFromLeft(Letter(r), letters);
    assert index == 26 * q + r + 1;
    assert (26 * q + r + 1) * p == q * (26 * p) + (r + 1) * p;
  }

  lemma AllWritten(column: nat, letters: string)
    requires Written(column, 0, letters)
    ensures IsWord(letters) && Value(letters) == column + 1
  {
    assert 0 * Pow26(|letters|) == 0;
  }

  /** Spreadsheet letters of a column counted from zero. */
  method ColumnLetter(column: nat) returns (letters: string)
    ensures IsWord(letters) && Value(letters) == column + 1
  {
    letters := "";
    var index: nat := column + 1;
    while index > 0
      invariant Written(column, index, letters)
    {
      WriteOne(column, index, letters);
      var remainder := (index - 1) % 26;
      index := (index - 1) / 26;
      letters := [Letter(remainder)] + letters;
    }
    AllWritten(column, letters);
  }

  /** Different words name different columns, so with the method above words and columns
      correspond one to one. */
  lemma {:induction false} OneWord(v: string, w: string)
    requires (v == "" || IsWord(v)) && (w == "" || IsWord(w)) && Value(v) == Value(w)
    ensures v == w
  {
    if v != "" && w != "" {
      var a, b := v[..|v| - 1], w[..|w| - 1];
      assert Value(a) == Value(b) && v[|v| - 1] == w[|w| - 1];
      OneWord(a, b);
      assert v == a + [v[|v| - 1]] && w == b + [w[|w| - 1]];
    }
  }

  // ----- shared strings -----------------------------------------------------------

  /** The texts in order of first appearance. */
  function FirstSeen(calls: seq<string>): seq<string> {
    if calls == [] then []
    else
      var before := FirstSeen(calls[..|calls| - 1]);
      if calls[|calls| - 1] in before then before else before + [calls[|calls| - 1]]
  }

  ghost predicate Distinct(xs: seq<string>) {
    forall i, j :: 0 <= i < j < |xs| ==> xs[i] != xs[j]
  }

  lemma {:induction false} FirstSeenIsCallsOnce(calls: seq<string>)
    ensures Distinct(FirstSeen(calls)) && forall v :: v in FirstSeen(calls) <==> v in calls
  {
    if calls == [] {
    } else {
      FirstSeenIsCallsOnce(calls[..|calls| - 1]);
      assert calls == calls[..|calls| - 1] + [calls[|calls| - 1]];
    }
  }

  /** Numbers once given are never taken back. */
  lemma {:induction false} NumbersStay(calls: seq<string>, more: seq<string>)
    ensures FirstSeen(calls) <= FirstSeen(calls + more)
  {
    if more == [] {
      assert calls + more == calls;
    } else {
      NumbersStay(calls, more[..|more| - 1]);
      assert (calls + more)[..|calls + more| - 1] == calls + more[..|more| - 1];
    }
  }

  class SharedStrings {
    var index: map<string, nat>
    var count: nat
    /** The table in insertion order, as it is written out. */
    var items: seq<string>
    ghost var calls: seq<string>

    ghost predicate Valid()
      reads this
    {
      && count == |calls| && items == FirstSeen(calls)
      && (forall v :: v in index <==> v in items)
      && (forall v :: v in index ==> index[v] < |items| && items[index[v]] == v)
      && |index| == |items|
    }

    constructor ()
      ensures Valid() && calls == []
    {
      index, count, items, calls := map[], 0, [], [];
    }

    method Index(value: string) returns (n: nat)
      requires Valid()
      modifies this
      ensures Valid() && calls == old(calls) + [value]
      ensures n < |items| && items[n] == value && index[value] == n
    {
      count := count + 1;
      FirstSeenIsCallsOnce(calls);
      assert (calls + [value])[..|calls|] == calls;
      if value !in index {
        index := index[value := |index|];
        items := items + [value];
      }
      calls := calls + [value];
      n := index[value];
    }
  }

  /** Two calls get the same number exactly when they name the same text, whatever was
      asked in between. */
  lemma SameNumberSameText(calls: seq<string>, more: seq<string>, m: nat, n: nat)
    requires m < |FirstSeen(calls)| && n < |FirstSeen(calls + more)|
    ensures m == n <==> FirstSeen(calls)[m] == FirstSeen(calls + more)[n]
  {
    NumbersStay(calls, more);
    FirstSeenIsCallsOnce(calls + more);
    assert FirstSeen(calls)[m] == FirstSeen(calls + more)[m];
  }

  // ----- escaping -----------------------------------------------------------------

  function Replace(s: string, c: char, word: string): string {
    if s == "" then "" else (if s[0] == c then word else [s[0]]) + Replace(s[1..], c, word)
  }

  function EscapeText(s: string): string {
    Replace(Replace(Replace(s, '&', "&amp;"), '<', "&lt;"), '>', "&gt;")
  }

  /** How a consumer reads character data. */
  function Read(s: string): string {
    if s == "" then ""
    else if "&amp;" <= s then "&" + Read(s[5..])
    else if "&lt;" <= s then "<" + Read(s[4..])
    else if "&gt;" <= s then ">" + Read(s[4..])
    else [s[0]] + Read(s[1..])
  }

  function Escaped(c: char): string {
    if c == '&' then "&amp;" else if c == '<' then "&lt;" else if c == '>' then "&gt;" else [c]
  }

  lemma {:induction false} ReplaceConcat(a: string, b: string, c: char, word: string)
    ensures Replace(a + b, c, word) == Replace(a, c, word) + Replace(b, c, word)
  {
    if a == "" {
      assert a + b == b;
    } else {
      ReplaceConcat(a[1..], b, c, word);
      assert (a + b)[1..] == a[1..] + b;
    }
  }

  lemma ReplaceOne(d: char, c: char, word: string)
    ensures Replace([d], c, word) == if d == c then word else [d]
  {
    assert [d][1..] == "";
    assert word + "" == word;
  }

  lemma EscapeOne(c: char)
    ensures EscapeText([c]) == Escaped(c)
  {
    ReplaceOne(c, '&', "&amp;");
    if c == '&' {
      Untouched("&amp;", '<', "&lt;");
      Untouched("&amp;", '>', "&gt;");
    } else {
      ReplaceOne(c, '<', "&lt;");
      if c == '<' { Untouched("&lt;", '>', "&gt;"); } else { ReplaceOne(c, '>', "&gt;"); }
    }
  }

  lemma {:induction false} Untouched(s: string, c: char, word: string)
    requires c !in s
    ensures Replace(s, c, word) == s
  {
    if s != "" {
      assert s[0] in s;
      Untouched(s[1..], c, word);
    }
  }

  lemma EscapeStep(s: string)
    requires s != ""
    ensures EscapeText(s) == Escaped(s[0]) + EscapeText(s[1..])
  {
    var head, tail := [s[0]], s[1..];
    assert s == head + tail;
    ReplaceConcat(head, tail, '&', "&amp;");
    var a, b := Replace(head, '&', "&amp;"), Replace(tail, '&', "&amp;");
    ReplaceConcat(a, b, '<', "&lt;");
    ReplaceConcat(Replace(a, '<', "&lt;"), Replace(b, '<', "&lt;"), '>', "&gt;");
    EscapeOne(s[0]);
  }

  /** A reader gets back the text that was written, and no markup is read into it. */
  lemma {:induction false} EscapeReadsBack(s: string)
    ensures Read(EscapeText(s)) == s
    ensures '<' !in EscapeText(s) && '>' !in EscapeText(s)
  {
    if s != "" {
      EscapeStep(s);
      EscapeReadsBack(s[1..]);
      var rest := EscapeText(s[1..]);
      var e := Escaped(s[0]);
      assert (e + rest)[|e|..] == rest;
      assert s == [s[0]] + s[1..];
      if s[0] == '&' {
        assert "&amp;" <= e + rest;
      } else if s[0] == '<' {
        assert (e + rest)[1] == 'l';
        assert "&lt;" <= e + rest;
      } else if s[0] == '>' {
        assert (e + rest)[1] == 'g';
        assert "&gt;" <= e + rest;
      } else {
        assert (e + rest)[0] == s[0] != '&';
      }
    }
  }
}
