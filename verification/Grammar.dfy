/** The tokens of the code skeleton, said without scanning: what each kind looks like and
    where it ends. */
module Grammar {
  import opened Options
  import opened Lexer

  /** The first place at or after `from` that reads `what`. */
  ghost predicate FirstAt(s: string, what: string, from: nat, k: nat) {
    from <= k && Matches(s, what, k) && forall i: nat :: from <= i < k ==> !Matches(s, what, i)
  }

  /** Through the first `what` at or after `from`; with none, to the end of the text. */
  ghost predicate Through(s: string, what: string, from: nat, end: nat) {
    || (exists k: nat :: FirstAt(s, what, from, k) && end == k + |what|)
    || (end == |s| && forall i: nat :: from <= i ==> !Matches(s, what, i))
  }

  predicate Reads(s: string, i: nat, a: char, b: char) {
    i + 1 < |s| && s[i] == a && s[i + 1] == b
  }

  /** From `//` up to the end of the line. */
  ghost predicate LineSpan(s: string, i: nat, end: nat) {
    && Reads(s, i, '/', '/') && i < end <= |s|
    && (forall j :: i <= j < end ==> s[j] != '\n') && (end == |s| || s[end] == '\n')
  }

  /** From slash and star through the first star and slash behind them. */
  ghost predicate BlockSpan(s: string, i: nat, end: nat) {
    Reads(s, i, '/', '*') && Through(s, "*/", i + 2, end)
  }

  /** `r`, any number of hashes, a quote; through the first quote with as many hashes. */
  ghost predicate RawSpan(s: string, i: nat, end: nat) {
    exists n: nat :: RawOpens(s, i, n) && Through(s, "\"" + Hashes(n), i + 2 + n, end)
  }

  ghost predicate RawOpens(s: string, i: nat, n: nat) {
    && i + 1 + n < |s| && s[i] == 'r' && s[i + 1 + n] == '"'
    && forall j :: i < j <= i + n ==> s[j] == '#'
  }

  /** A quote, one character and a quote; or a quote and an escape, up to the closing quote. */
  ghost predicate CharSpan(s: string, i: nat, end: nat) {
    && i + 1 < |s| && s[i] == '\''
    && if s[i + 1] == '\\' then QuotedSpan(s, i, end) else i + 2 < |s| && s[i + 2] == '\'' && end == i + 3
  }

  /** `b` or `c` before a quoted or a raw literal. */
  ghost predicate PrefixSpan(s: string, i: nat, end: nat) {
    && i + 1 < |s| && (s[i] == 'b' || s[i] == 'c')
    && if s[i + 1] == '"' || s[i + 1] == '\'' then QuotedSpan(s, i + 1, end) else RawSpan(s, i + 1, end)
  }

  /** Everything blanked in any case: all but line comments. */
  ghost predicate LiteralSpan(s: string, i: nat, end: nat) {
    || (i < |s| && s[i] == '"' && QuotedSpan(s, i, end))
    || CharSpan(s, i, end) || BlockSpan(s, i, end) || RawSpan(s, i, end) || PrefixSpan(s, i, end)
  }

  // ----- the scan finds these --------------------------------------------------------

  lemma QuotedMeans(s: string, at: nat, end: nat)
    requires at < |s| && s[at] != '\\'
    ensures QuotedSpan(s, at, end) <==> end == QuotedFrom(s, at + 1, s[at])
  {
    QuotedIsFirstClose(s, at);
  }

  lemma FirstIsOne(s: string, what: string, from: nat, k: nat, l: nat)
    requires FirstAt(s, what, from, k) && FirstAt(s, what, from, l)
    ensures k == l
  {
  }

  lemma ThroughMeans(s: string, what: string, from: nat, end: nat)
    requires from <= |s|
    ensures Through(s, what, from, end) <==> end == (match Find(s, what, from) case Some(k) => k + |what| case None => |s|)
  {
    match Find(s, what, from)
    case Some(k) =>
      assert FirstAt(s, what, from, k);
      forall l: nat | FirstAt(s, what, from, l) ensures l == k { FirstIsOne(s, what, from, k, l); }
    case None =>
  }

  lemma LineMeans(s: string, i: nat, end: nat)
    requires Reads(s, i, '/', '/')
    ensures LineSpan(s, i, end) <==> end == LineCommentEnd(s, i)
  {
  }

  lemma BlockMeans(s: string, i: nat, end: nat)
    requires Reads(s, i, '/', '*')
    ensures BlockSpan(s, i, end) <==> end == BlockCommentEnd(s, i)
  {
    ThroughMeans(s, "*/", i + 2, end);
  }

  lemma HashesHere(s: string, i: nat, n: nat)
    requires RawOpens(s, i, n)
    ensures n == HashCount(s, i + 1)
  {
    assert s[i + 1 + n] != '#';
  }

  lemma RawOpened(s: string, i: nat, n: nat, end: nat)
    requires RawOpens(s, i, n)
    ensures RawSpan(s, i, end) <==> Through(s, "\"" + Hashes(n), i + 2 + n, end)
  {
    HashesHere(s, i, n);
    forall m: nat | RawOpens(s, i, m) ensures m == n { HashesHere(s, i, m); }
  }

  lemma RawCloses(s: string, at: nat, n: nat, end: nat)
    requires at < |s| && s[at] == '"'
    ensures RawStringEnd(s, at, n) == Some(end) <==> Through(s, "\"" + Hashes(n), at + 1, end)
  {
    var close := "\"" + Hashes(n);
    assert |close| == n + 1;
    ThroughMeans(s, close, at + 1, end);
  }

  lemma NotRaw(s: string, i: nat, end: nat)
    requires i < |s| && s[i] == 'r' && var at := i + 1 + HashCount(s, i + 1); at >= |s| || s[at] != '"'
    ensures !RawSpan(s, i, end)
  {
    forall n: nat ensures !RawOpens(s, i, n) {
      if RawOpens(s, i, n) { HashesHere(s, i, n); }
    }
  }

  lemma RawMeans(s: string, i: nat, end: nat)
    requires i < |s| && s[i] == 'r'
    ensures RawSpan(s, i, end) <==> RawStringEnd(s, i + 1 + HashCount(s, i + 1), HashCount(s, i + 1)) == Some(end)
  {
    var n := HashCount(s, i + 1);
    if i + 1 + n < |s| && s[i + 1 + n] == '"' {
      RawOpened(s, i, n, end);
      RawCloses(s, i + 1 + n, n, end);
    } else {
      NotRaw(s, i, end);
    }
  }

  lemma PrefixedMeans(s: string, i: nat, end: nat)
    requires i < |s| && s[i] in "brc"
    ensures PrefixedLiteralEnd(s, i) == Some(end) <==> RawSpan(s, i, end) || PrefixSpan(s, i, end)
  {
    if s[i] == 'r' {
      RawMeans(s, i, end);
    } else if i + 1 < |s| {
      if s[i + 1] == '"' || s[i + 1] == '\'' {
        QuotedMeans(s, i + 1, end);
      } else if s[i + 1] == 'r' {
        RawMeans(s, i + 1, end);
      }
    }
  }

  lemma CharMeans(s: string, i: nat, end: nat)
    requires i < |s| && s[i] == '\''
    ensures CharLiteralEnd(s, i) == Some(end) <==> CharSpan(s, i, end)
  {
    QuotedMeans(s, i, end);
  }

  /** What the scan takes for a token at a position is what the grammar says. */
  lemma TokenMeans(s: string, i: nat, end: nat)
    requires i < |s|
    ensures TokenAt(s, i) == Comment(end) <==> LineSpan(s, i, end)
    ensures TokenAt(s, i) == Blanked(end) <==> LiteralSpan(s, i, end)
  {
    if s[i] == '"' {
      QuotedMeans(s, i, end);
    } else if s[i] == '\'' {
      CharMeans(s, i, end);
    } else if Reads(s, i, '/', '/') {
      LineMeans(s, i, end);
    } else if Reads(s, i, '/', '*') {
      BlockMeans(s, i, end);
    } else if s[i] in "brc" {
      PrefixedMeans(s, i, end);
    }
  }

  // ----- one tokenization --------------------------------------------------------------

  ghost predicate AnySpan(s: string, i: nat, end: nat) {
    LineSpan(s, i, end) || LiteralSpan(s, i, end)
  }

  /** Spans in order, each a token, and nowhere outside them does a token start. */
  ghost predicate Tokenization(s: string, spans: seq<Span>) {
    && (forall k :: 0 <= k < |spans| ==> spans[k].start < |s| && AnySpan(s, spans[k].start, spans[k].end))
    && InOrder(spans)
    && forall j: nat, end: nat :: j < |s| && !Covered(spans, j) ==> !AnySpan(s, j, end)
  }

  lemma AnyMeans(s: string, i: nat, end: nat)
    requires i < |s|
    ensures AnySpan(s, i, end) <==> !TokenAt(s, i).Code? && TokenAt(s, i).end == end
  {
    TokenMeans(s, i, end);
  }

  /** A text has one tokenization, and its spans are the ones blanked. */
  lemma OneTokenization(s: string, spans: seq<Span>)
    ensures Tokenization(s, spans) <==> spans == Blanking(s, false)
  {
    TokensMean(s);
    SpansTokenize(Tokens(s), 0);
    if Tokenization(s, spans) { SpansAreUnique(Tokens(s), 0, spans); }
  }

  lemma TokensMean(s: string)
    ensures forall i: nat, end: nat :: i < |s| ==> (AnySpan(s, i, end) <==> !Tokens(s)[i].Code? && Tokens(s)[i].end == end)
    ensures forall i: nat :: i < |s| && !Tokens(s)[i].Code? ==> AnySpan(s, i, Tokens(s)[i].end)
  {
    forall i: nat, end: nat | i < |s| ensures AnySpan(s, i, end) <==> !Tokens(s)[i].Code? && Tokens(s)[i].end == end { AnyMeans(s, i, end); }
  }

  lemma {:induction false} KeptOut(s: string, i: nat, span: Span)
    requires i <= |s|
    ensures span in Spans(Tokens(s), i, true) <==> span in Spans(Tokens(s), i, false) && LiteralSpan(s, span.start, span.end)
    decreases |s| - i
  {
    var toks := Tokens(s);
    if i == |s| {
    } else if toks[i].Code? {
      KeptOut(s, i + 1, span);
    } else {
      TokenMeans(s, i, toks[i].end);
      KeptOut(s, toks[i].end, span);
      SpansStartLater(toks, toks[i].end, span);
    }
  }

  lemma SpansStartLater(toks: seq<Token>, i: nat, span: Span)
    requires Forward(toks) && i <= |toks|
    ensures span in Spans(toks, i, false) ==> span.start >= i
  {
    SpansTokenize(toks, i);
  }

  /** Keeping line comments blanks the same spans without the line comments. */
  lemma KeepsLineComments(s: string, span: Span)
    ensures span in Blanking(s, true) <==> span in Blanking(s, false) && LiteralSpan(s, span.start, span.end)
  {
    KeptOut(s, 0, span);
  }
}
