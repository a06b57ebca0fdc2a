/** What the preview makes of a markdown payload (app/admin/preview-render.ts). */
module Spans {
  import opened Types
  import opened Text
  import opened Markdown

  // ---- inline spans -----------------------------------------------------------------------------

  datatype Inline =
    | Plain(text: string)
    | Strong(text: string)
    | Mono(text: string)
    | Anchor(text: string, href: string)

  /** A match of the span pattern: where it is, how long it is, and what it becomes. */
  datatype Found = Found(at: nat, len: nat, span: Inline)

  /** The markdown a span stands for. */
  function Printed(i: Inline): string {
    match i
    case Plain(t) => t
    case Strong(t) => Bolded(t)
    case Mono(t) => Coded(t)
    case Anchor(t, href) => Linked(LinkText(t, href))
  }

  function PrintedAll(spans: seq<Inline>): string {
    if spans == [] then "" else Printed(spans[0]) + PrintedAll(spans[1..])
  }

  /** The span pattern at the head of `s`: bold, else code, else a link. */
  function SpanAt(s: string): (r: Option<Inline>)
    ensures r.Some? ==> !r.value.Plain? && Printed(r.value) != "" && Printed(r.value) <= s
  {
    if Bold(s).Some? then Some(Strong(Bold(s).value))
    else if Code(s).Some? then Some(Mono(Code(s).value))
    else if Markdown.Link(s).Some? then Some(Anchor(Markdown.Link(s).value.text, Markdown.Link(s).value.url))
    else None
  }

  /** `text.matchAll(pattern)`, from a position on. */
  function MatchAll(text: string, from: nat): seq<Found>
    requires from <= |text|
    decreases |text| - from
  {
    if from == |text| then []
    else
      match SpanAt(text[from..])
      case None => MatchAll(text, from + 1)
      case Some(span) => [Found(from, |Printed(span)|, span)] + MatchAll(text, from + |Printed(span)|)
  }

  /** Matches in order, apart from each other, inside the text. */
  predicate InOrder(text: string, from: nat, found: seq<Found>)
    decreases |found|
  {
    if found == [] then from <= |text|
    else from <= found[0].at && InOrder(text, found[0].at + found[0].len, found[1..])
  }

  function PlainIf(text: string): seq<Inline> {
    if text == "" then [] else [Plain(text)]
  }

  /** The spans from `last` on: the matches, and the text before, between and after them. */
  function Pieces(text: string, last: nat, found: seq<Found>): seq<Inline>
    requires InOrder(text, last, found)
    decreases |found|
  {
    if found == [] then PlainIf(text[last..])
    else
      InOrderInside(text, found[0].at + found[0].len, found[1..]);
      PlainIf(text[last..found[0].at]) + [found[0].span]
      + Pieces(text, found[0].at + found[0].len, found[1..])
  }

  lemma {:induction false} InOrderInside(text: string, from: nat, found: seq<Found>)
    requires InOrder(text, from, found)
    ensures from <= |text|
    decreases |found|
  {
    if found != [] {
      InOrderInside(text, found[0].at + found[0].len, found[1..]);
    }
  }

  function Collected(text: string, found: seq<Found>): seq<Inline>
    requires InOrder(text, 0, found)
  {
    var spans := Pieces(text, 0, found);
    if spans == [] then [Plain("")] else spans
  }

  /** One round of the loop in collect. */
  lemma PiecesStep(text: string, last: nat, found: seq<Found>, i: nat, spans: seq<Inline>)
    requires i < |found| && InOrder(text, last, found[i..])
    ensures var m := found[i];
            var next := m.at + m.len;
            && last <= m.at && next <= |text| && InOrder(text, next, found[i + 1..])
            && spans + Pieces(text, last, found[i..])
            == spans + PlainIf(text[last..m.at]) + [m.span] + Pieces(text, next, found[i + 1..])
  {
    var m, rest := found[i], found[i + 1..];
    assert found[i..][0] == m && found[i..][1..] == rest;
    InOrderInside(text, m.at + m.len, rest);
    var tail := Pieces(text, m.at + m.len, rest);
    var gap := PlainIf(text[last..m.at]);
    assert spans + (gap + [m.span] + tail) == spans + gap + [m.span] + tail;
  }

  /** collect. */
  method Collect(text: string, found: seq<Found>) returns (spans: seq<Inline>)
    requires InOrder(text, 0, found)
    ensures spans == Collected(text, found)
  {
    hide InOrder, Pieces;
    spans := [];
    var last: nat, i := 0, 0;
    assert found[0..] == found;
    assert [] + Pieces(text, 0, found) == Pieces(text, 0, found);
    while i < |found|
      invariant i <= |found| && last <= |text| && InOrder(text, last, found[i..])
      invariant Pieces(text, 0, found) == spans + Pieces(text, last, found[i..])
    {
      PiecesStep(text, last, found, i, spans);
      var m := found[i];
      ghost var before := spans;
      if m.at > last {
        spans := spans + [Plain(text[last..m.at])];
      }
      assert spans == before + PlainIf(text[last..m.at]);
      spans := spans + [m.span];
      last := m.at + m.len;
      i := i + 1;
    }
    assert found[i..] == [];
    PiecesEnd(text, last);
    ghost var before := spans;
    if last < |text| {
      spans := spans + [Plain(text[last..])];
    }
    assert spans == before + PlainIf(text[last..]);
    if spans == [] {
      spans := [Plain("")];
    }
  }

  lemma PiecesEnd(text: string, last: nat)
    requires last <= |text|
    ensures InOrder(text, last, []) && Pieces(text, last, []) == PlainIf(text[last..])
  {
  }

  lemma {:induction false} MatchAllInOrder(text: string, from: nat)
    requires from <= |text|
    ensures InOrder(text, from, MatchAll(text, from))
    decreases |text| - from
  {
    hide SpanAt, Printed;
    if from < |text| {
      match SpanAt(text[from..])
      case None =>
        MatchAllInOrder(text, from + 1);
        LaterInOrder(text, from, from + 1, MatchAll(text, from + 1));
      case Some(span) =>
        MatchAllInOrder(text, from + |Printed(span)|);
    }
  }

  lemma LaterInOrder(text: string, a: nat, b: nat, found: seq<Found>)
    requires a <= b && InOrder(text, b, found)
    ensures InOrder(text, a, found)
  {
  }

  /** markdownSpans. */
  function MarkdownSpans(text: string): seq<Inline> {
    MatchAllInOrder(text, 0);
    Collected(text, MatchAll(text, 0))
  }

  // ---- nothing is lost --------------------------------------------------------------------------

  lemma {:induction false} PrintedAppend(a: seq<Inline>, b: seq<Inline>)
    ensures PrintedAll(a + b) == PrintedAll(a) + PrintedAll(b)
  {
    hide Printed;
    if a == [] {
      assert a + b == b;
    } else {
      assert (a + b)[1..] == a[1..] + b;
      PrintedAppend(a[1..], b);
    }
  }

  /** Each match prints as the text it was found at. */
  predicate Faithful(text: string, found: seq<Found>) {
    forall m :: m in found ==> m.at + m.len <= |text| && Printed(m.span) == text[m.at..m.at + m.len]
  }

  lemma {:induction false} MatchAllFaithful(text: string, from: nat)
    requires from <= |text|
    ensures Faithful(text, MatchAll(text, from))
    decreases |text| - from
  {
    hide SpanAt, Printed;
    if from < |text| {
      match SpanAt(text[from..])
      case None =>
        MatchAllFaithful(text, from + 1);
      case Some(span) =>
        var n := |Printed(span)|;
        assert text[from..][..n] == text[from..from + n];
        MatchAllFaithful(text, from + n);
    }
  }

  lemma PlainIfPrints(t: string)
    ensures PrintedAll(PlainIf(t)) == t
  {
    if t != "" {
      assert [Plain(t)][1..] == [];
      assert PrintedAll([Plain(t)]) == t + "";
    }
  }

  lemma {:induction false} PiecesPrint(text: string, last: nat, found: seq<Found>)
    requires InOrder(text, last, found) && Faithful(text, found)
    ensures last <= |text| && PrintedAll(Pieces(text, last, found)) == text[last..]
    decreases |found|
  {
    hide Printed, PrintedAll, PlainIf;
    InOrderInside(text, last, found);
    if found == [] {
      PlainIfPrints(text[last..]);
    } else {
      var m := found[0];
      var next := m.at + m.len;
      assert m in found;
      PiecesPrint(text, next, found[1..]);
      PlainIfPrints(text[last..m.at]);
      PiecesOfOne(PlainIf(text[last..m.at]), m.span, Pieces(text, next, found[1..]));
      ThreeParts(text, last, m.at, next);
    }
  }

  lemma ThreeParts(text: string, a: nat, b: nat, c: nat)
    requires a <= b <= c <= |text|
    ensures text[a..] == text[a..b] + text[b..c] + text[c..]
  {
  }

  lemma PiecesOfOne(before: seq<Inline>, span: Inline, rest: seq<Inline>)
    ensures PrintedAll(before + [span] + rest) == PrintedAll(before) + Printed(span) + PrintedAll(rest)
  {
    hide Printed;
    PrintedAppend(before + [span], rest);
    PrintedAppend(before, [span]);
    assert [span][1..] == [];
    assert PrintedAll([span]) == Printed(span) + "";
  }

  /** Printing the spans gives the text back, whatever it is. */
  lemma SpansPrintBack(text: string)
    ensures PrintedAll(MarkdownSpans(text)) == text
  {
    var found := MatchAll(text, 0);
    MatchAllInOrder(text, 0);
    MatchAllFaithful(text, 0);
    PiecesPrint(text, 0, found);
    PlainIfPrints("");
    assert [Plain("")][1..] == [];
  }

  // ---- nothing is missed ------------------------------------------------------------------------

  /** More text behind a match does not change it. */
  lemma SpanAtExtends(a: string, b: string)
    requires SpanAt(a).Some?
    ensures SpanAt(a + b) == SpanAt(a)
  {
    BoldIsThePattern(a + b, if Bold(a).Some? then Bold(a).value else "");
    CodeIsThePattern(a + b, if Code(a).Some? then Code(a).value else "");
    LinkExtends(a, b);
    assert a != "" && (a + b)[0] == a[0];
  }

  lemma LinkExtends(a: string, b: string)
    ensures Markdown.Link(a).Some? ==> Markdown.Link(a + b) == Markdown.Link(a)
  {
    if Markdown.Link(a).Some? {
      var l := Markdown.Link(a).value;
      LinkIsThePattern(a, l);
      LinkIsThePattern(a + b, l);
    }
  }

  /** No match starts from `a` up to `b`. */
  ghost predicate IsQuiet(text: string, a: nat, b: nat)
    requires b <= |text|
  {
    forall j :: a <= j < b ==> SpanAt(text[j..]).None?
  }

  ghost predicate QuietBetween(text: string, last: nat, found: seq<Found>)
    requires InOrder(text, last, found)
    decreases |found|
  {
    InOrderInside(text, last, found);
    if found == [] then IsQuiet(text, last, |text|)
    else
      InOrderInside(text, found[0].at + found[0].len, found[1..]);
      IsQuiet(text, last, found[0].at) && QuietBetween(text, found[0].at + found[0].len, found[1..])
  }

  lemma QuietFromEarlier(text: string, from: nat, found: seq<Found>)
    requires from < |text| && SpanAt(text[from..]).None?
    requires InOrder(text, from + 1, found) && QuietBetween(text, from + 1, found)
    ensures InOrder(text, from, found) && QuietBetween(text, from, found)
  {
    hide SpanAt;
    LaterInOrder(text, from, from + 1, found);
    if found != [] {
      InOrderInside(text, found[0].at + found[0].len, found[1..]);
    }
  }

  lemma {:induction false} MatchAllMissesNothing(text: string, from: nat)
    requires from <= |text|
    ensures InOrder(text, from, MatchAll(text, from)) && QuietBetween(text, from, MatchAll(text, from))
    decreases |text| - from
  {
    hide SpanAt, Printed;
    MatchAllInOrder(text, from);
    if from < |text| {
      match SpanAt(text[from..])
      case None =>
        MatchAllMissesNothing(text, from + 1);
        QuietFromEarlier(text, from, MatchAll(text, from + 1));
      case Some(span) =>
        MatchAllMissesNothing(text, from + |Printed(span)|);
    }
  }

  /** Text in which no match starts. */
  ghost predicate HasNoMarkup(t: string) {
    forall i :: 0 <= i < |t| ==> SpanAt(t[i..]).None?
  }

  lemma QuietHasNoMarkup(text: string, a: nat, b: nat)
    requires a <= b <= |text| && IsQuiet(text, a, b)
    ensures HasNoMarkup(text[a..b])
  {
    hide SpanAt;
    var t := text[a..b];
    forall i | 0 <= i < |t| ensures SpanAt(t[i..]).None? {
      assert text[a + i..] == t[i..] + text[b..];
      if SpanAt(t[i..]).Some? {
        SpanAtExtends(t[i..], text[b..]);
      }
    }
  }

  ghost predicate PlainHasNoMarkup(spans: seq<Inline>) {
    forall s :: s in spans && s.Plain? ==> HasNoMarkup(s.text)
  }

  lemma {:induction false} PiecesHaveNoMarkup(text: string, last: nat, found: seq<Found>)
    requires InOrder(text, last, found) && QuietBetween(text, last, found)
    requires forall m :: m in found ==> !m.span.Plain?
    ensures PlainHasNoMarkup(Pieces(text, last, found))
    decreases |found|
  {
    hide HasNoMarkup, SpanAt, IsQuiet;
    InOrderInside(text, last, found);
    if found == [] {
      QuietHasNoMarkup(text, last, |text|);
      assert text[last..|text|] == text[last..];
    } else {
      InOrderInside(text, found[0].at + found[0].len, found[1..]);
      QuietHasNoMarkup(text, last, found[0].at);
      PiecesHaveNoMarkup(text, found[0].at + found[0].len, found[1..]);
    }
  }

  lemma {:induction false} MatchesAreNotPlain(text: string, from: nat)
    requires from <= |text|
    ensures forall m :: m in MatchAll(text, from) ==> !m.span.Plain?
    decreases |text| - from
  {
    hide SpanAt, Printed;
    if from < |text| {
      match SpanAt(text[from..])
      case None =>
        MatchesAreNotPlain(text, from + 1);
      case Some(span) =>
        MatchesAreNotPlain(text, from + |Printed(span)|);
    }
  }

  /** What is left as plain text contains no markup that was overlooked. */
  lemma PlainSpansHoldNoMarkup(text: string)
    ensures PlainHasNoMarkup(MarkdownSpans(text))
  {
    hide SpanAt;
    MatchAllMissesNothing(text, 0);
    MatchesAreNotPlain(text, 0);
    PiecesHaveNoMarkup(text, 0, MatchAll(text, 0));
    assert HasNoMarkup("");
  }

  // ---- what the spans are -----------------------------------------------------------------------

  /** A span begins at the head of `s` exactly when one of the three patterns matches there, and it is that one. */
  lemma SpanIsThePattern(s: string, t: string, href: string)
    ensures SpanAt(s) == Some(Strong(t)) <==> t != "" && '*' !in t && '\n' !in t && "**" + t + "**" <= s
    ensures SpanAt(s) == Some(Mono(t)) <==> t != "" && '`' !in t && '\n' !in t && "`" + t + "`" <= s
    ensures SpanAt(s) == Some(Anchor(t, href)) <==>
            IsLink(LinkText(t, href)) && "[" + t + "](" + href + ")" <= s
  {
    BoldIsThePattern(s, t);
    CodeIsThePattern(s, t);
    LinkIsThePattern(s, LinkText(t, href));
    hide Bold, Code, Markdown.Link, IsLink;
    OnePatternOnly(s);
  }

  /** The three patterns begin with different characters. */
  lemma OnePatternOnly(s: string)
    ensures Bold(s).Some? ==> Code(s).None? && Markdown.Link(s).None?
    ensures Code(s).Some? ==> Markdown.Link(s).None?
  {
    if s != "" {
      assert Bold(s).Some? ==> s[0] == Bolded(Bold(s).value)[0] == '*';
      assert Code(s).Some? ==> s[0] == Coded(Code(s).value)[0] == '`';
      assert Markdown.Link(s).Some? ==> s[0] == Linked(Markdown.Link(s).value)[0] == '[';
    }
    hide RunLen;
  }

  lemma {:induction false} PiecesAreNotEmpty(text: string, last: nat, found: seq<Found>)
    requires InOrder(text, last, found) && forall m :: m in found ==> !m.span.Plain?
    ensures forall i :: i in Pieces(text, last, found) && i.Plain? ==> i.text != ""
    decreases |found|
  {
    if found != [] {
      assert found[0] in found;
      PiecesAreNotEmpty(text, found[0].at + found[0].len, found[1..]);
    }
  }

  /** No plain span is empty, except the one that stands for an empty text. */
  lemma PlainSpansAreNotEmpty(text: string)
    ensures forall i :: i in MarkdownSpans(text) && i.Plain? ==> i.text != "" || MarkdownSpans(text) == [Plain("")]
  {
    MatchAllInOrder(text, 0);
    MatchesAreNotPlain(text, 0);
    PiecesAreNotEmpty(text, 0, MatchAll(text, 0));
    hide MatchAll, Pieces;
  }

  // ---- lines and blocks -------------------------------------------------------------------------

  datatype Level = H2 | H3

  datatype Block =
    | Heading(level: Level, text: string)
    | Bullet(spans: seq<Inline>)
    | TagLine(text: string)
    | Para(spans: seq<Inline>)

  predicate IsBlank(c: char) {
    c == ' ' || c == '\t'
  }

  function BlanksLen(s: string): (n: nat)
    ensures n <= |s|
  {
    if s != "" && IsBlank(s[0]) then 1 + BlanksLen(s[1..]) else 0
  }

  function WithoutTrailingBlanks(s: string): string {
    if s != "" && IsBlank(s[|s| - 1]) then WithoutTrailingBlanks(s[..|s| - 1]) else s
  }

  /** What `.` matches (ECMA-262, section 22.2.2.7). */
  predicate IsDotted(s: string) {
    forall c :: c in s ==> c !in {'\n', '\r', '\U{2028}', '\U{2029}'}
  }

  /** `^(#{2,3})[ \t]+(.+?)[ \t]*$` */
  function HeadingOf(line: string): Option<Block> {
    var hashes := if "###" <= line then 3 else if "##" <= line then 2 else 0;
    var rest := line[hashes..];
    var blanks := BlanksLen(rest);
    if hashes == 0 || blanks == 0 then None
    else
      var level := if hashes == 3 then H3 else H2;
      var body := rest[blanks..];
      if body != "" then
        if IsDotted(WithoutTrailingBlanks(body)) then Some(Heading(level, WithoutTrailingBlanks(body))) else None
      else if blanks > 1 then Some(Heading(level, rest[blanks - 1..]))
      else None
  }

  /** `^[-*][ \t]+(.*)$` */
  function BulletOf(line: string): Option<Block> {
    if line != "" && (line[0] == '-' || line[0] == '*') && BlanksLen(line[1..]) > 0 then
      var body := line[1..][BlanksLen(line[1..])..];
      if IsDotted(body) then Some(Bullet(MarkdownSpans(body))) else None
    else None
  }

  predicate IsTagChar(c: char) {
    'A' <= c <= 'Z' || '0' <= c <= '9' || c in {' ', '_', '-'}
  }

  /** Length of `\[[A-Z0-9 _-]+\][ \t]*` at the head of `s`, or 0. */
  function TagLen(s: string): (n: nat)
    ensures n <= |s|
  {
    if s == "" || s[0] != '[' then 0
    else
      var k := RunLen(c => !IsTagChar(c), s[1..]);
      if k > 0 && 1 + k < |s| && s[1 + k] == ']' then 2 + k + BlanksLen(s[2 + k..]) else 0
  }

  predicate IsTags(s: string) {
    TagLen(s) > 0 && (TagLen(s) == |s| || IsTags(s[TagLen(s)..]))
  }

  /** `^(?:(?:UPDATED|REMINDER): )?(\[[A-Z0-9 _-]+\][ \t]*)+$` */
  predicate IsTagLine(s: string) {
    if "UPDATED: " <= s then IsTags(s[9..]) else if "REMINDER: " <= s then IsTags(s[10..]) else IsTags(s)
  }

  /** What one line that is not blank becomes. */
  function BlockOf(line: string): Block {
    if HeadingOf(line).Some? then HeadingOf(line).value
    else if BulletOf(line).Some? then BulletOf(line).value
    else if IsTagLine(Trim(line)) then TagLine(Trim(line))
    else Para(MarkdownSpans(line))
  }

  /** `s.split('\n')`. */
  function SplitLines(s: string): (lines: seq<string>)
    ensures lines != []
  {
    if s == "" then [""]
    else if s[0] == '\n' then [""] + SplitLines(s[1..])
    else
      var rest := SplitLines(s[1..]);
      [[s[0]] + rest[0]] + rest[1..]
  }

  function NewlinesLen(s: string): (n: nat)
    ensures n <= |s|
  {
    if s != "" && s[0] == '\n' then 1 + NewlinesLen(s[1..]) else 0
  }

  /** `s.split(/\n{2,}/)`, where `chunk` has been read of the current piece. */
  function SplitChunks(chunk: string, s: string): (chunks: seq<string>)
    decreases |s|
  {
    if s == "" then [chunk]
    else if NewlinesLen(s) >= 2 then [chunk] + SplitChunks("", s[NewlinesLen(s)..])
    else SplitChunks(chunk + [s[0]], s[1..])
  }

  /** The blocks of the lines that are not blank. */
  function Blocks(lines: seq<string>): seq<Block> {
    if lines == [] then []
    else (if Trim(lines[0]) == "" then [] else [BlockOf(lines[0])]) + Blocks(lines[1..])
  }

  function ChunkBlocks(chunks: seq<string>): seq<Block> {
    if chunks == [] then [] else Blocks(SplitLines(chunks[0])) + ChunkBlocks(chunks[1..])
  }

  lemma {:induction false} BlocksAppend(a: seq<string>, b: seq<string>)
    ensures Blocks(a + b) == Blocks(a) + Blocks(b)
  {
    hide BlockOf, Trim;
    if a == [] {
      assert a + b == b;
    } else {
      assert (a + b)[1..] == a[1..] + b;
      BlocksAppend(a[1..], b);
    }
  }

  /** A newline ends a line. */
  lemma {:induction false} SplitAtNewline(a: string, b: string)
    ensures SplitLines(a + "\n" + b) == SplitLines(a) + SplitLines(b)
  {
    if a == "" {
      assert (a + "\n" + b)[1..] == b;
    } else {
      assert (a + "\n" + b)[1..] == a[1..] + "\n" + b;
      SplitAtNewline(a[1..], b);
    }
  }

  /** Newlines in front make blank lines only. */
  lemma {:induction false} LeadingNewlinesAreDropped(s: string)
    ensures Blocks(SplitLines(s)) == Blocks(SplitLines(s[NewlinesLen(s)..]))
  {
    if s != "" && s[0] == '\n' {
      LeadingNewlinesAreDropped(s[1..]);
      assert s[1..][NewlinesLen(s[1..])..] == s[NewlinesLen(s)..];
      BlankLineIsDropped(SplitLines(s[1..]));
    }
  }

  lemma BlankLineIsDropped(lines: seq<string>)
    ensures Blocks([""] + lines) == Blocks(lines)
  {
    assert ([""] + lines)[1..] == lines;
    assert Trim("") == "";
  }

  /** A run of newlines separates what is before from what is after. */
  lemma RunSeparates(chunk: string, s: string)
    requires NewlinesLen(s) >= 1
    ensures Blocks(SplitLines(chunk + s)) == Blocks(SplitLines(chunk)) + Blocks(SplitLines(s[NewlinesLen(s)..]))
  {
    assert chunk + s == chunk + "\n" + s[1..];
    SplitAtNewline(chunk, s[1..]);
    LeadingNewlinesAreDropped(s[1..]);
    assert s[1..][NewlinesLen(s[1..])..] == s[NewlinesLen(s)..];
    hide Blocks, SplitLines, NewlinesLen;
    BlocksAppend(SplitLines(chunk), SplitLines(s[1..]));
  }

  lemma ChunkThenMore(chunk: string, more: seq<string>)
    ensures ChunkBlocks([chunk] + more) == Blocks(SplitLines(chunk)) + ChunkBlocks(more)
  {
    assert ([chunk] + more)[1..] == more;
  }

  /** Splitting at blank lines first makes no difference. */
  lemma {:induction false} ChunksDoNotMatter(chunk: string, s: string)
    ensures ChunkBlocks(SplitChunks(chunk, s)) == Blocks(SplitLines(chunk + s))
    decreases |s|
  {
    hide Blocks, SplitLines, ChunkBlocks;
    var n := NewlinesLen(s);
    if s == "" {
      assert chunk + s == chunk;
      ChunkThenMore(chunk, []);
      NoChunks();
      assert [chunk] + [] == [chunk];
    } else if n >= 2 {
      ChunksDoNotMatter("", s[n..]);
      assert "" + s[n..] == s[n..];
      RunSeparates(chunk, s);
      ChunkThenMore(chunk, SplitChunks("", s[n..]));
    } else {
      ChunksDoNotMatter(chunk + [s[0]], s[1..]);
      MoveOne(chunk, s);
    }
  }

  lemma MoveOne(chunk: string, s: string)
    requires s != ""
    ensures chunk + [s[0]] + s[1..] == chunk + s
  {
  }

  lemma NoChunks()
    ensures ChunkBlocks([]) == []
  {
  }

  lemma ChunkStep(chunks: seq<string>, i: nat, blocks: seq<Block>)
    requires i < |chunks|
    ensures blocks + ChunkBlocks(chunks[i..])
         == blocks + (Blocks(SplitLines(chunks[i])) + ChunkBlocks(chunks[i + 1..]))
  {
    assert chunks[i..][0] == chunks[i] && chunks[i..][1..] == chunks[i + 1..];
  }

  lemma LineStep(lines: seq<string>, j: nat, blocks: seq<Block>, rest: seq<Block>)
    requires j < |lines|
    ensures blocks + (Blocks(lines[j..]) + rest)
         == blocks + (if Trim(lines[j]) == "" then [] else [BlockOf(lines[j])]) + (Blocks(lines[j + 1..]) + rest)
  {
    hide BlockOf, Trim;
    assert lines[j..][0] == lines[j] && lines[j..][1..] == lines[j + 1..];
  }

  lemma NoLines(rest: seq<Block>)
    ensures Blocks([]) + rest == rest
  {
  }

  /** parseMarkdownBlocks: chunk by chunk, which gives what the plain lines give. */
  method ParseMarkdownBlocks(md: string) returns (blocks: seq<Block>)
    ensures blocks == Blocks(SplitLines(md))
  {
    hide BlockOf, Trim, Blocks, SplitLines, ChunkBlocks, SplitChunks;
    blocks := [];
    var chunks := SplitChunks("", md);
    ChunksDoNotMatter("", md);
    assert "" + md == md;
    var i := 0;
    assert chunks[0..] == chunks && [] + ChunkBlocks(chunks) == ChunkBlocks(chunks);
    while i < |chunks|
      invariant i <= |chunks|
      invariant ChunkBlocks(chunks) == blocks + ChunkBlocks(chunks[i..])
    {
      ChunkStep(chunks, i, blocks);
      var lines := SplitLines(chunks[i]);
      ghost var rest := ChunkBlocks(chunks[i + 1..]);
      var j := 0;
      assert lines[0..] == lines;
      while j < |lines|
        invariant j <= |lines|
        invariant ChunkBlocks(chunks) == blocks + (Blocks(lines[j..]) + rest)
      {
        LineStep(lines, j, blocks, rest);
        if Trim(lines[j]) != "" {
          blocks := blocks + [BlockOf(lines[j])];
        } else {
          assert blocks + [] == blocks;
        }
        j := j + 1;
      }
      assert lines[j..] == [];
      NoLines(rest);
      i := i + 1;
    }
    assert chunks[i..] == [];
    NoChunks();
  }

  // ---- what a line is ---------------------------------------------------------------------------

  predicate IsSpaceOrTab(c: char) {
    c == ' ' || c == '\t'
  }

  predicate AreBlanks(s: string) {
    forall c :: c in s ==> IsSpaceOrTab(c)
  }

  /** No line feed, carriage return, line separator or paragraph separator. */
  predicate IsOneLine(s: string) {
    forall c :: c in s ==> c != '\n' && c != '\r' && c != '\U{2028}' && c != '\U{2029}'
  }

  /** The text a heading captures between its blanks; one blank is captured when nothing else is left. */
  predicate IsHeadingText(text: string, after: string) {
    && text != "" && IsOneLine(text) && AreBlanks(after)
    && (|| (!IsSpaceOrTab(text[0]) && !IsSpaceOrTab(text[|text| - 1]))
        || (|text| == 1 && IsSpaceOrTab(text[0]) && after == ""))
  }

  function Hashes(level: Level): string {
    if level == H2 then "##" else "###"
  }

  ghost predicate IsHeading(line: string, level: Level, text: string) {
    exists before, after :: before != "" && AreBlanks(before) && IsHeadingText(text, after)
                            && line == Hashes(level) + before + text + after
  }

  lemma {:induction false} BlanksLenIs(s: string)
    ensures AreBlanks(s[..BlanksLen(s)]) && (BlanksLen(s) < |s| ==> !IsBlank(s[BlanksLen(s)]))
  {
    if s != "" && IsBlank(s[0]) {
      BlanksLenIs(s[1..]);
      assert s[..BlanksLen(s)] == [s[0]] + s[1..][..BlanksLen(s[1..])];
    }
  }

  lemma {:induction false} BlanksLenOf(b: string, rest: string)
    requires AreBlanks(b) && (rest != "" ==> !IsBlank(rest[0]))
    ensures BlanksLen(b + rest) == |b|
  {
    if b == "" {
      assert b + rest == rest;
    } else {
      assert b[0] in b && (b + rest)[1..] == b[1..] + rest;
      BlanksLenOf(b[1..], rest);
    }
  }

  lemma {:induction false} TrailingBlanksAre(s: string)
    ensures var t := WithoutTrailingBlanks(s); t <= s && AreBlanks(s[|t|..]) && (t != "" ==> !IsBlank(t[|t| - 1]))
    decreases |s|
  {
    if s != "" && IsBlank(s[|s| - 1]) {
      var init := s[..|s| - 1];
      TrailingBlanksAre(init);
      var t := WithoutTrailingBlanks(init);
      assert s[|t|..] == init[|t|..] + [s[|s| - 1]];
    }
  }

  lemma {:induction false} TrailingBlanksOf(t: string, b: string)
    requires AreBlanks(b) && (t != "" ==> !IsBlank(t[|t| - 1]))
    ensures WithoutTrailingBlanks(t + b) == t
    decreases |b|
  {
    if b == "" {
      assert t + b == t;
    } else {
      var s := t + b;
      assert b[|b| - 1] in b && s[|s| - 1] == b[|b| - 1] && s[..|s| - 1] == t + b[..|b| - 1];
      TrailingBlanksOf(t, b[..|b| - 1]);
    }
  }

  lemma CutsTwice(h: string, rest: string, n: nat, k: nat)
    requires n <= |rest| && k <= |rest[n..]|
    ensures h + rest == h + rest[..n] + rest[n..][..k] + rest[n..][k..]
  {
  }

  /** What is captured between the blanks in front and those behind. */
  lemma CapturedIsHeadingText(body: string)
    requires body != "" && !IsBlank(body[0]) && IsDotted(WithoutTrailingBlanks(body))
    ensures var text := WithoutTrailingBlanks(body);
            && |text| <= |body| && text == body[..|text|] && IsHeadingText(text, body[|text|..])
  {
    hide IsDotted, IsOneLine, WithoutTrailingBlanks;
    DottedIsOneLine(WithoutTrailingBlanks(body));
    TrailingBlanksAre(body);
    BodyStarts(body);
  }

  lemma HeadingWithBody(level: Level, rest: string)
    requires 0 < BlanksLen(rest) < |rest| && IsDotted(WithoutTrailingBlanks(rest[BlanksLen(rest)..]))
    ensures IsHeading(Hashes(level) + rest, level, WithoutTrailingBlanks(rest[BlanksLen(rest)..]))
  {
    hide BlanksLen, WithoutTrailingBlanks, IsDotted, Hashes, AreBlanks, IsHeadingText, IsBlank;
    var n := BlanksLen(rest);
    BlanksLenIs(rest);
    var text := WithoutTrailingBlanks(rest[n..]);
    CapturedIsHeadingText(rest[n..]);
    CutsTwice(Hashes(level), rest, n, |text|);
  }

  lemma HeadingOfBlanks(level: Level, rest: string)
    requires BlanksLen(rest) == |rest| > 1
    ensures IsHeading(Hashes(level) + rest, level, rest[|rest| - 1..])
  {
    hide BlanksLen, Hashes;
    BlanksLenIs(rest);
    var n := |rest| - 1;
    assert rest[..|rest|] == rest && rest[n] in rest;
    BlankIsDotted(rest[n..]);
    assert Hashes(level) + rest == Hashes(level) + rest[..n] + rest[n..] + "";
    assert AreBlanks(rest[..n]) && IsHeadingText(rest[n..], "");
  }

  /** The parts of a line with a heading. */
  lemma HeadingSplits(line: string)
    requires HeadingOf(line).Some?
    ensures HeadingOf(line).value.Heading? && IsHeading(line, HeadingOf(line).value.level, HeadingOf(line).value.text)
  {
    hide BlanksLen, WithoutTrailingBlanks, IsDotted, IsHeading;
    var level := if "###" <= line then H3 else H2;
    var rest := line[|Hashes(level)|..];
    assert line == Hashes(level) + rest;
    if BlanksLen(rest) < |rest| {
      HeadingWithBody(level, rest);
    } else {
      HeadingOfBlanks(level, rest);
    }
  }

  lemma DottedIsOneLine(s: string)
    ensures IsDotted(s) <==> IsOneLine(s)
  {
  }

  lemma BodyStarts(body: string)
    requires body != "" && !IsBlank(body[0])
    ensures WithoutTrailingBlanks(body) != ""
  {
    TrailingBlanksAre(body);
    assert body[0] in body[0..];
  }

  lemma BlankIsDotted(text: string)
    requires |text| == 1 && IsBlank(text[0])
    ensures IsDotted(text)
  {
  }

  lemma HeadingIsFound(line: string, level: Level, text: string)
    requires IsHeading(line, level, text)
    ensures HeadingOf(line) == Some(Heading(level, text))
  {
    var before, after :| before != "" && AreBlanks(before) && IsHeadingText(text, after)
                         && line == Hashes(level) + before + text + after;
    HashesAre(line, level, before, text + after);
    DottedIsOneLine(text);
    hide HeadingOf, Hashes, IsOneLine;
    if !IsBlank(text[0]) {
      TextIsCaptured(line, level, before, text, after);
    } else {
      assert before + (text + after) == before + text;
      BlankIsCaptured(line, level, before, text);
    }
  }

  lemma TextIsCaptured(line: string, level: Level, before: string, text: string, after: string)
    requires "##" <= line && ("###" <= line <==> level == H3)
    requires line[|Hashes(level)|..] == before + (text + after)
    requires before != "" && AreBlanks(before) && AreBlanks(after) && IsDotted(text)
    requires text != "" && !IsBlank(text[0]) && !IsBlank(text[|text| - 1])
    ensures HeadingOf(line) == Some(Heading(level, text))
  {
    hide BlanksLen, WithoutTrailingBlanks, IsDotted;
    BlanksLenOf(before, text + after);
    TrailingBlanksOf(text, after);
    assert (before + (text + after))[|before|..] == text + after;
  }

  lemma BlankIsCaptured(line: string, level: Level, before: string, text: string)
    requires "##" <= line && ("###" <= line <==> level == H3) && line[|Hashes(level)|..] == before + text
    requires before != "" && AreBlanks(before) && AreBlanks(text) && |text| == 1
    ensures HeadingOf(line) == Some(Heading(level, text))
  {
    hide BlanksLen, WithoutTrailingBlanks, IsDotted;
    assert (before + text) + "" == before + text;
    BlanksLenOf(before + text, "");
    assert (before + text)[|before|..] == text && (before + text)[|before| + 1..] == "";
  }

  lemma HashesAre(line: string, level: Level, before: string, more: string)
    requires before != "" && AreBlanks(before) && line == Hashes(level) + before + more
    ensures "##" <= line && ("###" <= line <==> level == H3) && line[|Hashes(level)|..] == before + more
  {
    assert before[0] in before;
    assert line[|Hashes(level)|] == before[0];
    assert level == H2 ==> line[2] != '#';
    assert "###"[2] == '#';
  }

  /** A heading is found, with its level and text, exactly when the pattern captures them. */
  lemma HeadingIsThePattern(line: string, level: Level, text: string)
    ensures HeadingOf(line) == Some(Heading(level, text)) <==> IsHeading(line, level, text)
  {
    hide IsHeading, HeadingOf;
    if HeadingOf(line) == Some(Heading(level, text)) {
      HeadingSplits(line);
    }
    if IsHeading(line, level, text) {
      HeadingIsFound(line, level, text);
    }
  }

  ghost predicate IsBullet(line: string, text: string) {
    exists mark: char, before :: (mark == '-' || mark == '*') && before != "" && AreBlanks(before)
                                 && IsOneLine(text) && (text != "" ==> !IsSpaceOrTab(text[0]))
                                 && line == [mark] + before + text
  }

  /** And so with a bullet: its spans are those of the text after the blanks. */
  lemma BulletIsThePattern(line: string)
    ensures BulletOf(line).Some? <==> exists text :: IsBullet(line, text)
    ensures forall text :: IsBullet(line, text) ==> BulletOf(line) == Some(Bullet(MarkdownSpans(text)))
  {
    hide BulletOf, IsBullet, MarkdownSpans;
    if BulletOf(line).Some? {
      var text := BulletSplits(line);
    }
    forall text | IsBullet(line, text) ensures BulletOf(line) == Some(Bullet(MarkdownSpans(text))) {
      BulletIsFound(line, text);
    }
  }

  lemma BulletSplits(line: string) returns (text: string)
    requires BulletOf(line).Some?
    ensures IsBullet(line, text)
  {
    hide MarkdownSpans, BlanksLen;
    var rest := line[1..];
    var n := BlanksLen(rest);
    BlanksLenIs(rest);
    text := rest[n..];
    assert line == [line[0]] + rest[..n] + text;
  }

  lemma BulletIsFound(line: string, text: string)
    requires IsBullet(line, text)
    ensures BulletOf(line) == Some(Bullet(MarkdownSpans(text)))
  {
    hide MarkdownSpans, BlanksLen;
    var mark: char, before :| (mark == '-' || mark == '*') && before != "" && AreBlanks(before)
      && IsOneLine(text) && (text != "" ==> !IsSpaceOrTab(text[0])) && line == [mark] + before + text;
    assert line[1..] == before + text;
    BlanksLenOf(before, text);
    assert line[1..][|before|..] == text;
    assert IsDotted(text);
  }

  // ---- tag lines --------------------------------------------------------------------------------

  /** One `[…]` of capitals, digits, blanks, underscores and hyphens, and the blanks after it. */
  datatype Tag = Tag(name: string, after: string)

  predicate IsTag(t: Tag) {
    && t.name != "" && AreBlanks(t.after)
    && forall c :: c in t.name ==> 'A' <= c <= 'Z' || '0' <= c <= '9' || c == ' ' || c == '_' || c == '-'
  }

  function TagText(t: Tag): string {
    "[" + t.name + "]" + t.after
  }

  function TagTexts(ts: seq<Tag>): string {
    if ts == [] then "" else TagText(ts[0]) + TagTexts(ts[1..])
  }

  ghost predicate AreTags(s: string) {
    exists ts :: ts != [] && (forall t :: t in ts ==> IsTag(t)) && s == TagTexts(ts)
  }

  lemma TagSplits(s: string) returns (t: Tag)
    requires TagLen(s) > 0
    ensures IsTag(t) && TagText(t) == s[..TagLen(s)]
  {
    var k := RunLen(c => !IsTagChar(c), s[1..]);
    var after := s[2 + k..];
    BlanksLenIs(after);
    t := Tag(s[1..][..k], after[..BlanksLen(after)]);
    forall c | c in t.name ensures IsTagChar(c) {
      var i :| 0 <= i < k && s[1..][i] == c;
    }
    assert s[..TagLen(s)] == "[" + t.name + "]" + t.after;
  }

  lemma TagIsFound(t: Tag, rest: string)
    requires IsTag(t) && (rest != "" ==> rest[0] == '[')
    ensures TagLen(TagText(t) + rest) == |TagText(t)|
  {
    var s := TagText(t) + rest;
    assert s[1..] == t.name + ("]" + t.after + rest);
    var stops := c => !IsTagChar(c);
    var n := |t.name|;
    assert stops(s[1..][n]) && forall i :: 0 <= i < n ==> !stops(s[1..][i]) by {
      forall i | 0 <= i < n ensures IsTagChar(s[1..][i]) {
        assert s[1..][i] == t.name[i] && t.name[i] in t.name;
      }
    }
    RunLenIs(stops, s[1..], n);
    RunLenAgrees(stops, c => !IsTagChar(c), s[1..]);
    assert s[2 + n..] == t.after + rest;
    BlanksLenOf(t.after, rest);
  }

  lemma {:induction false} RunLenAgrees(f: char -> bool, g: char -> bool, s: string)
    requires forall c :: f(c) == g(c)
    ensures RunLen(f, s) == RunLen(g, s)
  {
    if s != "" {
      RunLenAgrees(f, g, s[1..]);
    }
  }

  lemma OneTagMore(t: Tag, ts: seq<Tag>)
    requires IsTag(t) && forall u :: u in ts ==> IsTag(u)
    ensures TagTexts([t] + ts) == TagText(t) + TagTexts(ts) && forall u :: u in [t] + ts ==> IsTag(u)
  {
    hide IsTag, TagText;
    assert ([t] + ts)[1..] == ts;
  }

  lemma {:induction false} TagsSplit(s: string)
    requires IsTags(s)
    ensures AreTags(s)
    decreases |s|
  {
    hide IsTag, TagText, TagTexts, TagLen;
    var t := TagSplits(s);
    var n := TagLen(s);
    assert s == s[..n] + s[n..];
    var ts: seq<Tag> := [];
    if n < |s| {
      TagsSplit(s[n..]);
      ts :| ts != [] && (forall u :: u in ts ==> IsTag(u)) && s[n..] == TagTexts(ts);
    } else {
      NoTagText();
    }
    OneTagMore(t, ts);
  }

  lemma NoTagText()
    ensures TagTexts([]) == ""
  {
  }

  lemma {:induction false} TagsAreFound(ts: seq<Tag>)
    requires ts != [] && forall t :: t in ts ==> IsTag(t)
    ensures TagTexts(ts) != "" && TagTexts(ts)[0] == '[' && IsTags(TagTexts(ts))
  {
    var rest := TagTexts(ts[1..]);
    if ts[1..] != [] {
      TagsAreFound(ts[1..]);
    }
    TagIsFound(ts[0], rest);
    var s := TagText(ts[0]) + rest;
    assert s[|TagText(ts[0])|..] == rest;
  }

  ghost predicate IsTagText(s: string) {
    || AreTags(s)
    || ("UPDATED: " <= s && AreTags(s[9..])) || ("REMINDER: " <= s && AreTags(s[10..]))
  }

  lemma TagsAreTags(s: string)
    ensures IsTags(s) <==> AreTags(s)
    ensures AreTags(s) ==> s != "" && s[0] == '['
  {
    if IsTags(s) {
      TagsSplit(s);
    }
    if AreTags(s) {
      var ts :| ts != [] && (forall t :: t in ts ==> IsTag(t)) && s == TagTexts(ts);
      TagsAreFound(ts);
    }
  }

  /** A tag line is an optional "UPDATED: " or "REMINDER: " and then one or more tags. */
  lemma TagLineIsThePattern(s: string)
    ensures IsTagLine(s) <==> IsTagText(s)
  {
    hide IsTags, AreTags;
    TagsAreTags(s);
    assert "UPDATED: "[0] == 'U' && "REMINDER: "[0] == 'R';
    if "UPDATED: " <= s {
      assert s[0] == 'U';
      TagsAreTags(s[9..]);
    } else if "REMINDER: " <= s {
      assert s[0] == 'R';
      TagsAreTags(s[10..]);
    }
  }

  // ---- which block a line becomes ---------------------------------------------------------------

  ghost predicate IsAnyHeading(line: string) {
    exists level, text :: IsHeading(line, level, text)
  }

  /**
   * A line is a heading with its level and text when the heading pattern matches, else a bullet of what follows
   * its mark, else a tag line when that pattern matches it without the blanks around it, else a paragraph.
   */
  lemma BlockIsTheFirstPattern(line: string)
    ensures forall level, text :: IsHeading(line, level, text) ==> BlockOf(line) == Heading(level, text)
    ensures !IsAnyHeading(line) ==>
              && (forall text :: IsBullet(line, text) ==> BlockOf(line) == Bullet(MarkdownSpans(text)))
              && ((forall text :: !IsBullet(line, text)) ==>
                    BlockOf(line) == if IsTagText(Trim(line)) then TagLine(Trim(line)) else Para(MarkdownSpans(line)))
  {
    hide HeadingOf, BulletOf, IsTagLine, IsHeading, IsBullet, IsTagText, Trim, MarkdownSpans;
    forall level, text | IsHeading(line, level, text) ensures BlockOf(line) == Heading(level, text) {
      HeadingIsThePattern(line, level, text);
    }
    BulletIsThePattern(line);
    TagLineIsThePattern(Trim(line));
    if HeadingOf(line).Some? {
      HeadingSplits(line);
    }
  }

  // ---- lines ------------------------------------------------------------------------------------

  function JoinLines(lines: seq<string>): string
    requires lines != []
  {
    if |lines| == 1 then lines[0] else lines[0] + "\n" + JoinLines(lines[1..])
  }

  /** The lines are what stands between the newlines, in order. */
  lemma {:induction false} LinesJoinBack(s: string)
    ensures JoinLines(SplitLines(s)) == s && forall l :: l in SplitLines(s) ==> '\n' !in l
  {
    if s != "" {
      LinesJoinBack(s[1..]);
      var rest := SplitLines(s[1..]);
      if s[0] == '\n' {
        assert ([""] + rest)[1..] == rest;
      } else {
        var lines := [[s[0]] + rest[0]] + rest[1..];
        assert lines[1..] == rest[1..] && rest[0] in rest;
        forall l | l in lines ensures '\n' !in l {
          if l != lines[0] {
            assert l in rest;
          }
        }
      }
    }
  }
}
