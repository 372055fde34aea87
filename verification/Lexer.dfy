/** The code skeleton of a Rust source: comments and literals blanked, offsets kept. The
    token grammar is the checker's own; block comments, for one, do not nest. */
module Lexer {
  import opened Options

  // ----- where a quoted literal ends ----------------------------------------------

  function QuotedFrom(s: string, i: nat, quote: char): (end: nat)
    ensures i < |s| ==> i < end <= |s|
    ensures i >= |s| ==> end == |s|
    decreases |s| + 2 - i
  {
    if i >= |s| then |s|
    else if s[i] == '\\' then (if i + 2 > |s| then |s| else QuotedFrom(s, i + 2, quote))
    else if s[i] == quote then i + 1
    else QuotedFrom(s, i + 1, quote)
  }

  /** Skips a backslash with the character after it; an open literal runs to the end. */
  method QuotedLiteralEnd(s: string, at: nat) returns (end: nat)
    requires at < |s| && s[at] != '\\'
    ensures QuotedSpan(s, at, end)
    ensures end == QuotedFrom(s, at + 1, s[at]) && at < end <= |s|
  {
    var i := at + 1;
    while i < |s|
      invariant at < i <= |s| + 1
      invariant QuotedFrom(s, at + 1, s[at]) == QuotedFrom(s, i, s[at])
    {
      if s[i] == '\\' { i := i + 2; }
      else if s[i] == s[at] {
        QuotedIsFirstClose(s, at);
        return i + 1;
      } else { i := i + 1; }
    }
    QuotedIsFirstClose(s, at);
    return |s|;
  }

  /** The backslashes directly before `q`, back to the opening quote at most. */
  function Backslashes(s: string, at: nat, q: nat): nat
    requires at < q <= |s|
  {
    if q - 1 > at && s[q - 1] == '\\' then 1 + Backslashes(s, at, q - 1) else 0
  }

  /** A quote no backslash escapes: the run of backslashes before it is even. */
  predicate Closes(s: string, at: nat, q: nat)
    requires at < |s|
  {
    at < q < |s| && s[q] == s[at] && Backslashes(s, at, q) % 2 == 0
  }

  ghost predicate QuotedSpan(s: string, at: nat, end: nat)
    requires at < |s|
  {
    || (at < end - 1 && Closes(s, at, end - 1) && forall q :: at < q < end - 1 ==> !Closes(s, at, q))
    || (end == |s| && forall q :: at < q < |s| ==> !Closes(s, at, q))
  }

  lemma {:induction false} FirstCloseFrom(s: string, at: nat, i: nat)
    requires at < i <= |s| && s[at] != '\\'
    requires Backslashes(s, at, i) % 2 == 0 && forall q :: at < q < i ==> !Closes(s, at, q)
    ensures QuotedSpan(s, at, QuotedFrom(s, i, s[at]))
    decreases |s| - i
  {
    if i == |s| {
    } else {
      if s[i] == '\\' {
        assert !Closes(s, at, i);
        if i + 1 < |s| {
          assert Backslashes(s, at, i + 1) == 1 + Backslashes(s, at, i);
          assert !Closes(s, at, i + 1);
          FirstCloseFrom(s, at, i + 2);
        }
      } else if s[i] != s[at] {
        FirstCloseFrom(s, at, i + 1);
      }
    }
  }

  /** Skipping escaped pairs finds the first quote that an even run of backslashes precedes. */
  lemma QuotedIsFirstClose(s: string, at: nat)
    requires at < |s| && s[at] != '\\'
    ensures QuotedSpan(s, at, QuotedFrom(s, at + 1, s[at]))
  {
    FirstCloseFrom(s, at, at + 1);
  }

  // ----- searching ------------------------------------------------------------------

  predicate Matches(s: string, what: string, k: nat) {
    k + |what| <= |s| && s[k..k + |what|] == what
  }

  function Find(s: string, what: string, from: nat): (k: Option<nat>)
    requires from <= |s|
    ensures k.Some? ==> from <= k.value && Matches(s, what, k.value) && forall i: nat :: from <= i < k.value ==> !Matches(s, what, i)
    ensures k.None? ==> forall i: nat :: from <= i ==> !Matches(s, what, i)
    decreases |s| - from
  {
    if Matches(s, what, from) then Some(from)
    else if from == |s| then None
    else Find(s, what, from + 1)
  }

  function LineCommentEnd(s: string, i: nat): (end: nat)
    requires i < |s| && s[i] == '/'
    ensures i < end <= |s| && (forall j :: i <= j < end ==> s[j] != '\n') && (end == |s| || s[end] == '\n')
  {
    var k := Find(s, "\n", i);
    assert forall j: nat :: i <= j < |s| && s[j] == '\n' ==> Matches(s, "\n", j);
    if k.Some? then assert s[k.value..k.value + 1] == "\n"; assert s[i..i + 1] == "/"; k.value else |s|
  }

  function BlockCommentEnd(s: string, i: nat): (end: nat)
    requires i + 1 < |s|
    ensures i < end <= |s|
  {
    var k := Find(s, "*/", i + 2);
    if k.Some? then k.value + 2 else |s|
  }

  function Hashes(n: nat): (r: string)
    ensures |r| == n && forall i :: 0 <= i < n ==> r[i] == '#'
  {
    seq(n, _ => '#')
  }

  /** How many `#` stand at `i` and right after it. */
  function HashCount(s: string, i: nat): (n: nat)
    ensures i <= |s| ==> i + n <= |s|
    ensures forall j :: i <= j < i + n && j < |s| ==> s[j] == '#'
    ensures i + n < |s| ==> s[i + n] != '#'
    decreases |s| - i
  {
    if i < |s| && s[i] == '#' then 1 + HashCount(s, i + 1) else 0
  }

  method CountHashes(s: string, i: nat) returns (n: nat)
    ensures n == HashCount(s, i)
  {
    n := 0;
    while i + n < |s| && s[i + n] == '#'
      invariant n + HashCount(s, i + n) == HashCount(s, i)
      decreases |s| - (i + n)
    {
      n := n + 1;
    }
  }

  function RawStringEnd(s: string, at: nat, hashes: nat): (end: Option<nat>)
    ensures end.Some? ==> at < end.value <= |s| && s[at] == '"'
  {
    if at >= |s| || s[at] != '"' then None
    else
      var k := Find(s, "\"" + Hashes(hashes), at + 1);
      Some(if k.Some? then k.value + 1 + hashes else |s|)
  }

  function CharLiteralEnd(s: string, i: nat): (end: Option<nat>)
    requires i < |s| && s[i] == '\''
    ensures end.Some? ==> i < end.value <= |s|
  {
    if i + 1 >= |s| then None
    else if s[i + 1] == '\\' then Some(QuotedFrom(s, i + 1, s[i]))
    else if i + 2 < |s| && s[i + 2] == '\'' then Some(i + 3)
    else None
  }

  function PrefixedLiteralEnd(s: string, i: nat): (end: Option<nat>)
    requires i < |s| && s[i] in "brc"
    ensures end.Some? ==> i < end.value <= |s|
  {
    if i + 1 >= |s| then None
    else if s[i] == 'r' then
      var n := HashCount(s, i + 1);
      RawStringEnd(s, i + 1 + n, n)
    else if s[i + 1] == '"' || s[i + 1] == '\'' then
      Some(QuotedFrom(s, i + 2, s[i + 1]))
    else if s[i + 1] == 'r' then
      var n := HashCount(s, i + 2);
      RawStringEnd(s, i + 2 + n, n)
    else None
  }

  // ----- tokens -------------------------------------------------------------------------

  /** What starts at a position: ordinary code, a line comment, or anything else that is
      blanked; `end` is one past its last character. */
  datatype Token = Code | Comment(end: nat) | Blanked(end: nat)

  function OrCode(end: Option<nat>): Token {
    if end.Some? then Blanked(end.value) else Code
  }

  function TokenAt(s: string, i: nat): (t: Token)
    requires i < |s|
    ensures !t.Code? ==> i < t.end <= |s|
  {
    if s[i] == '"' then Blanked(QuotedFrom(s, i + 1, s[i]))
    else if s[i] == '\'' then OrCode(CharLiteralEnd(s, i))
    else if s[i] == '/' && i + 1 < |s| && s[i + 1] == '/' then Comment(LineCommentEnd(s, i))
    else if s[i] == '/' && i + 1 < |s| && s[i + 1] == '*' then Blanked(BlockCommentEnd(s, i))
    else if s[i] in "brc" then OrCode(PrefixedLiteralEnd(s, i))
    else Code
  }

  /** What would start at each position if the scan came by. */
  function Tokens(s: string): (toks: seq<Token>)
    ensures |toks| == |s| && Forward(toks)
  {
    seq(|s|, i requires 0 <= i < |s| => TokenAt(s, i))
  }

  predicate Forward(toks: seq<Token>) {
    forall i :: 0 <= i < |toks| && !toks[i].Code? ==> i < toks[i].end <= |toks|
  }

  datatype Span = Span(start: nat, end: nat)

  predicate Kept(t: Token, keep: bool) {
    t.Comment? && keep
  }

  /** The spans blanked from `i` on, left to right. */
  function Spans(toks: seq<Token>, i: nat, keep: bool): seq<Span>
    requires i <= |toks| && Forward(toks)
    decreases |toks| - i
  {
    if i == |toks| then []
    else if toks[i].Code? then Spans(toks, i + 1, keep)
    else if Kept(toks[i], keep) then Spans(toks, toks[i].end, keep)
    else [Span(i, toks[i].end)] + Spans(toks, toks[i].end, keep)
  }

  function Blanking(s: string, keep: bool): seq<Span> {
    Spans(Tokens(s), 0, keep)
  }

  predicate Covered(spans: seq<Span>, j: nat) {
    exists k :: 0 <= k < |spans| && spans[k].start <= j < spans[k].end
  }

  function Blank(c: char): char {
    if c == '\n' then '\n' else ' '
  }

  predicate BlankedBy(s: string, spans: seq<Span>, t: string) {
    |t| == |s| && forall j :: 0 <= j < |s| ==> t[j] == if Covered(spans, j) then Blank(s[j]) else s[j]
  }

  method BlankSpan(s: string, start: nat, end: nat, result: array<char>)
    requires start <= end && result.Length == |s|
    modifies result
    ensures forall j :: 0 <= j < |s| ==> result[j] == if start <= j < end then Blank(s[j]) else old(result[j])
  {
    var last := if end < |s| then end else |s|;
    var j := start;
    while j < last
      invariant start <= j && (j <= last || j == start)
      invariant forall k :: 0 <= k < |s| ==> result[k] == if start <= k < j && k < last then Blank(s[k]) else old(result[k])
    {
      result[j] := Blank(s[j]);
      j := j + 1;
    }
  }

  lemma CoveredMore(spans: seq<Span>, more: Span)
    ensures forall j: nat :: Covered(spans + [more], j) <==> Covered(spans, j) || more.start <= j < more.end
  {
    forall j: nat | Covered(spans, j) ensures Covered(spans + [more], j) {
      var k :| 0 <= k < |spans| && spans[k].start <= j < spans[k].end;
      assert (spans + [more])[k] == spans[k];
    }
    assert (spans + [more])[|spans|] == more;
  }

  lemma BlanksMore(s: string, spans: seq<Span>, more: Span, before: string, after: string)
    requires BlankedBy(s, spans, before) && |after| == |s|
    requires forall j :: 0 <= j < |s| ==> after[j] == if more.start <= j < more.end then Blank(s[j]) else before[j]
    ensures BlankedBy(s, spans + [more], after)
  {
    CoveredMore(spans, more);
  }

  /** The skeleton of a source, blanked in place in a copy of it. */
  method StripLiterals(s: string, keep: bool) returns (result: array<char>)
    ensures fresh(result) && BlankedBy(s, Blanking(s, keep), result[..])
  {
    result := new char[|s|](i requires 0 <= i < |s| => s[i]);
    var index := 0;
    ghost var toks, spans: seq<Span> := Tokens(s), [];
    while index < |s|
      invariant index <= |s| && spans + Spans(toks, index, keep) == Blanking(s, keep)
      invariant BlankedBy(s, spans, result[..])
      decreases |s| - index
    {
      var t := TokenAt(s, index);
      assert t == toks[index];
      if t.Code? { index := index + 1; }
      else {
        if !Kept(t, keep) {
          ghost var before := result[..];
          BlankSpan(s, index, t.end, result);
          BlanksMore(s, spans, Span(index, t.end), before, result[..]);
          SpansOneMore(toks, index, keep, spans);
          spans := spans + [Span(index, t.end)];
        }
        index := t.end;
      }
    }
    assert spans + Spans(toks, index, keep) == spans;
  }

  lemma SpansOneMore(toks: seq<Token>, i: nat, keep: bool, spans: seq<Span>)
    requires Forward(toks) && i < |toks| && !toks[i].Code? && !Kept(toks[i], keep)
    ensures spans + Spans(toks, i, keep) == spans + [Span(i, toks[i].end)] + Spans(toks, toks[i].end, keep)
  {
  }

  // ----- the spans are the tokenization -------------------------------------------------

  ghost predicate AreTokens(toks: seq<Token>, i: nat, spans: seq<Span>) {
    forall k :: 0 <= k < |spans| ==>
      i <= spans[k].start < |toks| && !toks[spans[k].start].Code? && spans[k].end == toks[spans[k].start].end
  }

  predicate InOrder(spans: seq<Span>) {
    forall k, l :: 0 <= k < l < |spans| ==> spans[k].end <= spans[l].start
  }

  ghost predicate CodeBetween(toks: seq<Token>, i: nat, spans: seq<Span>) {
    forall j: nat :: i <= j < |toks| && !Covered(spans, j) ==> toks[j].Code?
  }

  /** Spans from `i` on that are tokens, in order, with nothing but code between them. */
  ghost predicate TokenizesFrom(toks: seq<Token>, i: nat, spans: seq<Span>) {
    AreTokens(toks, i, spans) && InOrder(spans) && CodeBetween(toks, i, spans)
  }

  lemma CoveredLess(first: Span, rest: seq<Span>, j: nat)
    ensures Covered([first] + rest, j) <==> first.start <= j < first.end || Covered(rest, j)
  {
    var spans := [first] + rest;
    if Covered(rest, j) {
      var k :| 0 <= k < |rest| && rest[k].start <= j < rest[k].end;
      assert spans[k + 1] == rest[k];
    }
    if first.start <= j < first.end { assert spans[0] == first; }
  }

  lemma InOrderPrepend(first: Span, rest: seq<Span>)
    requires InOrder(rest) && forall k :: 0 <= k < |rest| ==> first.end <= rest[k].start
    ensures InOrder([first] + rest)
  {
  }

  lemma CodePrepend(toks: seq<Token>, i: nat, first: Span, rest: seq<Span>)
    requires first.start == i && CodeBetween(toks, first.end, rest)
    ensures CodeBetween(toks, i, [first] + rest)
  {
    forall j: nat | i <= j < |toks| && !Covered([first] + rest, j) ensures toks[j].Code? { CoveredLess(first, rest, j); }
  }

  lemma AreTokensPrepend(toks: seq<Token>, i: nat, rest: seq<Span>)
    requires Forward(toks) && i < |toks| && !toks[i].Code? && AreTokens(toks, toks[i].end, rest)
    ensures AreTokens(toks, i, [Span(i, toks[i].end)] + rest)
  {
  }

  lemma TokensPrepend(toks: seq<Token>, i: nat, rest: seq<Span>)
    requires Forward(toks) && i < |toks| && !toks[i].Code? && TokenizesFrom(toks, toks[i].end, rest)
    ensures TokenizesFrom(toks, i, [Span(i, toks[i].end)] + rest)
  {
    InOrderPrepend(Span(i, toks[i].end), rest);
    CodePrepend(toks, i, Span(i, toks[i].end), rest);
    AreTokensPrepend(toks, i, rest);
  }

  lemma {:induction false} SpansTokenize(toks: seq<Token>, i: nat)
    requires Forward(toks) && i <= |toks|
    ensures TokenizesFrom(toks, i, Spans(toks, i, false))
    decreases |toks| - i
  {
    if i == |toks| {
    } else {
      if toks[i].Code? {
        SpansTokenize(toks, i + 1);
        CodeFirst(toks, i, Spans(toks, i + 1, false));
      } else {
        SpansTokenize(toks, toks[i].end);
        TokensPrepend(toks, i, Spans(toks, toks[i].end, false));
      }
    }
  }

  lemma CodeFirst(toks: seq<Token>, i: nat, spans: seq<Span>)
    requires i < |toks| && toks[i].Code? && TokenizesFrom(toks, i + 1, spans)
    ensures TokenizesFrom(toks, i, spans)
  {
  }

  /** There is one tokenization, so the skeleton blanks exactly the tokens. */
  lemma {:induction false} SpansAreUnique(toks: seq<Token>, i: nat, spans: seq<Span>)
    requires Forward(toks) && i <= |toks| && TokenizesFrom(toks, i, spans)
    ensures spans == Spans(toks, i, false)
    decreases |toks| - i
  {
    if i == |toks| {
      if spans != [] { SpanBeforeEnd(toks, i, spans); }
    } else if toks[i].Code? {
      SpansAreUnique(toks, i + 1, spans);
    } else {
      FirstSpan(toks, i, spans);
      var first, rest := spans[0], spans[1..];
      assert spans == [first] + rest;
      forall j: nat ensures Covered(spans, j) <==> i <= j < first.end || Covered(rest, j) { CoveredLess(first, rest, j); }
      SpansAreUnique(toks, first.end, rest);
    }
  }

  lemma SpanBeforeEnd(toks: seq<Token>, i: nat, spans: seq<Span>)
    requires AreTokens(toks, i, spans) && spans != []
    ensures i < |toks|
  {
    var first := spans[0];
  }

  lemma FirstSpan(toks: seq<Token>, i: nat, spans: seq<Span>)
    requires Forward(toks) && i < |toks| && TokenizesFrom(toks, i, spans) && !toks[i].Code?
    ensures spans != [] && spans[0] == Span(i, toks[i].end)
  {
    assert Covered(spans, i);
    var k :| 0 <= k < |spans| && spans[k].start <= i < spans[k].end;
  }

  // ----- what a skeleton looks like -------------------------------------------------------

  /** Offsets and line numbers of the source are those of the skeleton. */
  lemma LinesStay(s: string, keep: bool, t: string)
    requires BlankedBy(s, Blanking(s, keep), t)
    ensures |t| == |s|
    ensures forall j :: 0 <= j < |s| ==> (t[j] == '\n' <==> s[j] == '\n')
    ensures forall j :: 0 <= j < |s| && t[j] != s[j] ==> t[j] == ' '
  {
  }

  lemma NoPrefixWithoutQuote(t: string, j: nat)
    requires j < |t| && t[j] in "brc" && forall k :: 0 <= k < |t| ==> t[k] != '"'
    requires j + 1 < |t| && t[j] != 'r' ==> t[j + 1] != '\''
    ensures PrefixedLiteralEnd(t, j).None?
  {
  }

  lemma PrefixWithQuote(s: string, j: nat)
    requires j + 1 < |s| && s[j] in "bc" && s[j + 1] == '\''
    ensures !TokenAt(s, j).Code?
  {
  }

  lemma CharLiteralHere(s: string, j: nat)
    requires j < |s| && s[j] == '\''
    ensures TokenAt(s, j).Code? <==> j + 1 >= |s| || (s[j + 1] != '\\' && (j + 2 >= |s| || s[j + 2] != '\''))
  {
  }

  lemma CommentHere(s: string, j: nat)
    requires j < |s| && s[j] == '/'
    ensures TokenAt(s, j).Code? <==> j + 1 >= |s| || (s[j + 1] != '/' && s[j + 1] != '*')
  {
  }

  lemma OtherwiseCode(s: string, j: nat)
    requires j < |s| && s[j] != '"' && s[j] != '\'' && s[j] != '/' && s[j] !in "brc"
    ensures TokenAt(s, j).Code?
  {
  }

  lemma UncoveredIsCode(s: string, t: string, j: nat)
    requires BlankedBy(s, Blanking(s, false), t) && j < |s| && t[j] != ' ' && t[j] != '\n'
    ensures t[j] == s[j] && TokenAt(s, j).Code?
  {
    SpansTokenize(Tokens(s), 0);
    assert !Covered(Blanking(s, false), j);
  }

  lemma LeftOrBlank(s: string, t: string, j: nat)
    requires BlankedBy(s, Blanking(s, false), t) && j < |s|
    ensures t[j] == s[j] || t[j] == ' ' || t[j] == '\n'
  {
  }

  /** Wherever something is left of the source, no token starts, neither in the source nor
      in the skeleton. */
  lemma CodeStaysCode(s: string, t: string, j: nat)
    requires BlankedBy(s, Blanking(s, false), t) && j < |s|
    requires forall k :: 0 <= k < |s| ==> t[k] != '"'
    ensures TokenAt(t, j).Code?
  {
    if t[j] == '/' || t[j] == '\'' || t[j] in "brc" {
      UncoveredIsCode(s, t, j);
      if j + 1 < |s| { LeftOrBlank(s, t, j + 1); }
      if j + 2 < |s| { LeftOrBlank(s, t, j + 2); }
      if t[j] == '/' {
        CommentHere(s, j);
        CommentHere(t, j);
      } else if t[j] == '\'' {
        CharLiteralHere(s, j);
        CharLiteralHere(t, j);
      } else {
        PrefixStaysCode(s, t, j);
      }
    } else {
      OtherwiseCode(t, j);
    }
  }

  lemma PrefixStaysCode(s: string, t: string, j: nat)
    requires |t| == |s| && j < |s| && t[j] == s[j] && t[j] in "brc" && TokenAt(s, j).Code?
    requires forall k :: 0 <= k < |s| ==> t[k] != '"'
    requires j + 1 < |s| ==> t[j + 1] == s[j + 1] || t[j + 1] == ' ' || t[j + 1] == '\n'
    ensures TokenAt(t, j).Code?
  {
    if j + 1 < |s| && t[j] != 'r' && s[j + 1] == '\'' { PrefixWithQuote(s, j); }
    NoPrefixWithoutQuote(t, j);
  }

  lemma NoQuoteLeft(s: string, t: string)
    requires BlankedBy(s, Blanking(s, false), t)
    ensures forall k :: 0 <= k < |t| ==> t[k] != '"'
  {
    forall k | 0 <= k < |t| ensures t[k] != '"' {
      if t[k] == '"' { UncoveredIsCode(s, t, k); }
    }
  }

  /** No string and no comment survives. */
  lemma NoLiteralLeft(s: string, t: string)
    requires BlankedBy(s, Blanking(s, false), t)
    ensures '"' !in t
    ensures forall k: nat :: !Matches(t, "//", k) && !Matches(t, "/*", k)
  {
    NoQuoteLeft(s, t);
    forall k: nat ensures !Matches(t, "//", k) && !Matches(t, "/*", k) {
      if Matches(t, "//", k) || Matches(t, "/*", k) {
        assert t[k] == t[k..k + 2][0] && t[k + 1] == t[k..k + 2][1];
        CodeStaysCode(s, t, k);
      }
    }
  }

  lemma {:induction false} NothingToBlank(toks: seq<Token>, i: nat)
    requires Forward(toks) && i <= |toks| && forall j: nat :: i <= j < |toks| ==> toks[j].Code?
    ensures Spans(toks, i, false) == []
    decreases |toks| - i
  {
    if i < |toks| { NothingToBlank(toks, i + 1); }
  }

  /** A skeleton is its own skeleton. */
  lemma Idempotent(s: string, t: string, u: string)
    requires BlankedBy(s, Blanking(s, false), t) && BlankedBy(t, Blanking(t, false), u)
    ensures u == t
  {
    NoQuoteLeft(s, t);
    forall j: nat | j < |t| ensures Tokens(t)[j].Code? { CodeStaysCode(s, t, j); }
    NothingToBlank(Tokens(t), 0);
  }

  lemma {:induction false} KeepingBlanksLess(toks: seq<Token>, i: nat, j: nat)
    requires Forward(toks) && i <= |toks| && Covered(Spans(toks, i, true), j)
    ensures Covered(Spans(toks, i, false), j)
    decreases |toks| - i
  {
    if i == |toks| {
    } else {
      var t := toks[i];
      if t.Code? {
        KeepingBlanksLess(toks, i + 1, j);
      } else {
        CoveredLess(Span(i, t.end), Spans(toks, t.end, false), j);
        CoveredLess(Span(i, t.end), Spans(toks, t.end, true), j);
        if Covered(Spans(toks, t.end, true), j) { KeepingBlanksLess(toks, t.end, j); }
      }
    }
  }

  /** The two variants agree except where the full one shows a space. */
  lemma FullIsAtMostKeeping(s: string, t: string, u: string)
    requires BlankedBy(s, Blanking(s, false), t) && BlankedBy(s, Blanking(s, true), u)
    ensures forall j :: 0 <= j < |s| && t[j] != u[j] ==> t[j] == ' ' && u[j] == s[j]
  {
    forall j | 0 <= j < |s| && t[j] != u[j] ensures t[j] == ' ' && u[j] == s[j] {
      if Covered(Blanking(s, true), j) { KeepingBlanksLess(Tokens(s), 0, j); }
    }
  }

  // ----- braces ------------------------------------------------------------------------------

  function Net(t: string): int {
    if t == [] then 0
    else
      var c := t[|t| - 1];
      Net(t[..|t| - 1]) + (if c == '{' then 1 else if c == '}' then -1 else 0)
  }

  /** `e` closes the brace opened just before `from`: what is between is balanced, and no
      earlier position would do. */
  ghost predicate ClosesBody(t: string, from: nat, e: nat) {
    && from <= e < |t| && t[e] == '}' && Net(t[from..e]) == 0
    && forall p :: from <= p <= e ==> Net(t[from..p]) >= 0
  }

  lemma NetStep(t: string, from: nat, index: nat)
    requires from <= index < |t|
    ensures Net(t[from..index + 1]) == Net(t[from..index]) + (if t[index] == '{' then 1 else if t[index] == '}' then -1 else 0)
  {
    assert t[from..index + 1] == t[from..index] + [t[index]];
  }

  method BodyEnd(t: string, from: nat) returns (end: Option<nat>)
    requires from <= |t|
    ensures end.Some? ==> ClosesBody(t, from, end.value)
    ensures end.None? ==> forall e: nat :: !ClosesBody(t, from, e)
  {
    var depth := 1;
    var index := from;
    assert t[from..from] == "";
    while index < |t|
      invariant from <= index <= |t| && depth == 1 + Net(t[from..index])
      invariant forall p :: from <= p <= index ==> Net(t[from..p]) >= 0
    {
      NetStep(t, from, index);
      if t[index] == '{' { depth := depth + 1; }
      else if t[index] == '}' {
        depth := depth - 1;
        if depth == 0 { return Some(index); }
      }
      index := index + 1;
    }
    forall e: nat | ClosesBody(t, from, e) ensures Net(t[from..e + 1]) < 0 { NetStep(t, from, e); }
    return None;
  }

  /** The body is determined by the skeleton, hence by the code alone. */
  lemma OneBody(t: string, from: nat, e: nat, f: nat)
    requires ClosesBody(t, from, e) && ClosesBody(t, from, f)
    ensures e == f
  {
    NetStep(t, from, e);
    NetStep(t, from, f);
  }

  /** A gate no lock precedes, in a body that has a lock. */
  ghost predicate GateUnlocked(size: nat, locks: nat -> bool, gates: nat -> bool) {
    && (exists l: nat :: l < size && locks(l))
    && (exists g: nat :: g < size && gates(g) && forall l: nat :: l <= g ==> !locks(l))
  }

  method First(size: nat, hit: nat -> bool) returns (at: Option<nat>)
    ensures at.Some? ==> at.value < size && hit(at.value) && forall i: nat :: i < at.value ==> !hit(i)
    ensures at.None? ==> forall i: nat :: i < size ==> !hit(i)
  {
    for i := 0 to size
      invariant forall k: nat :: k < i ==> !hit(k)
    {
      if hit(i) { return Some(i); }
    }
    return None;
  }

  /** Reports a body that has a lock call but passes a gate before any. `locks` and `gates`
      tell where in the body the two patterns match. */
  method GateBeforeLock(t: string, from: nat, locks: nat -> bool, gates: nat -> bool) returns (violated: bool, size: nat)
    requires from <= |t|
    ensures from + size <= |t| && (ClosesBody(t, from, from + size) || (from + size == |t| && forall e: nat :: !ClosesBody(t, from, e)))
    ensures violated <==> GateUnlocked(size, locks, gates)
  {
    var end := BodyEnd(t, from);
    size := (if end.Some? then end.value else |t|) - from;
    var lock := First(size, locks);
    var gate := First(size, gates);
    violated := lock.Some? && gate.Some? && gate.value < lock.value;
  }
}
