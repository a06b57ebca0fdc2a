/** Repairing a pasted certificate bundle (normalizePem and describeCaBundle, src/db/connect.ts). */
module Pem {
  import opened Types
  import opened Text

  /** The two lines around a certificate. */
  datatype Markers = Markers(begin: string, end: string)

  const PEM := Markers("-----BEGIN CERTIFICATE-----", "-----END CERTIFICATE-----")

  // ---- string primitives ------------------------------------------------------------------------

  predicate At(s: string, p: string, i: nat) {
    i + |p| <= |s| && s[i..i + |p|] == p
  }

  /** `s.indexOf(p, from)`. */
  function IndexOf(s: string, p: string, from: nat): (r: int)
    requires from <= |s|
    ensures r == -1 || from <= r <= |s| - |p|
    decreases |s| - from
  {
    if At(s, p, from) then from
    else if from == |s| then -1
    else IndexOf(s, p, from + 1)
  }

  /** It is the first position at or after `from` where `p` occurs, and -1 when there is none. */
  lemma {:induction false} IndexOfIsFirst(s: string, p: string, from: nat)
    requires from <= |s|
    ensures var r := IndexOf(s, p, from);
            && (r != -1 ==> At(s, p, r))
            && forall k :: from <= k < (if r == -1 then |s| + 1 else r) ==> !At(s, p, k)
    decreases |s| - from
  {
    if !At(s, p, from) && from < |s| {
      IndexOfIsFirst(s, p, from + 1);
    }
  }

  /** `s.replace(/\s+/g, '')`. */
  function Squeezed(s: string): (r: string)
    ensures forall c :: c in r ==> !IsSpace(c)
  {
    if s == "" then "" else (if IsSpace(s[0]) then "" else [s[0]]) + Squeezed(s[1..])
  }

  /** `s.match(/.{1,64}/g) ?? []`, for a string without line terminators. */
  function Wrapped(s: string): (lines: seq<string>)
    ensures forall l :: l in lines ==> 1 <= |l| <= 64
  {
    if s == "" then [] else if |s| <= 64 then [s] else [s[..64]] + Wrapped(s[64..])
  }

  function JoinLines(lines: seq<string>): string {
    if lines == [] then "" else if |lines| == 1 then lines[0] else lines[0] + "\n" + JoinLines(lines[1..])
  }

  /** `s.replace(/\\n/g, '\n')`: a backslash and an n become one newline. */
  function Unescape(s: string): string {
    if s == "" then ""
    else if At(s, "\\n", 0) then "\n" + Unescape(s[2..])
    else [s[0]] + Unescape(s[1..])
  }

  predicate HasEscapedNewline(s: string) {
    IndexOf(s, "\\n", 0) != -1
  }

  function Unescaped(raw: string): string {
    if HasEscapedNewline(raw) && '\n' !in raw then Unescape(raw) else raw
  }

  // ---- specification ----------------------------------------------------------------------------

  /** Where the next block's two markers are. */
  datatype Search = NoBegin | NoEnd | Found(begin: nat, end: nat)

  function NextBlock(m: Markers, s: string, from: nat): (r: Search)
    requires from <= |s|
    ensures r.Found? ==>
      && from <= r.begin && r.begin + |m.begin| <= r.end && r.end + |m.end| <= |s|
  {
    var b := IndexOf(s, m.begin, from);
    if b == -1 then NoBegin
    else
      var e := IndexOf(s, m.end, b + |m.begin|);
      if e == -1 then NoEnd else Found(b, e)
  }

  /** The text between the markers of each block from `from` on; None when a BEGIN has no END after it. */
  function Bodies(m: Markers, s: string, from: nat): Option<seq<string>>
    requires m.begin != "" && from <= |s|
    decreases |s| - from
  {
    match NextBlock(m, s, from)
    case NoBegin => Some([])
    case NoEnd => None
    case Found(b, e) => Prepend(s[b + |m.begin|..e], Bodies(m, s, e + |m.end|))
  }

  function Prepend(first: string, more: Option<seq<string>>): Option<seq<string>> {
    match more
    case None => None
    case Some(bodies) => Some([first] + bodies)
  }

  /** One certificate in canonical form, from its base64 text without white space. */
  function Canonical(m: Markers, cert: string): string {
    m.begin + "\n" + JoinLines(Wrapped(cert)) + "\n" + m.end + "\n"
  }

  function Certs(bodies: seq<string>): (r: seq<string>)
    ensures |r| == |bodies|
  {
    if bodies == [] then [] else [Squeezed(bodies[0])] + Certs(bodies[1..])
  }

  function Render(m: Markers, certs: seq<string>): string {
    if certs == [] then "" else Canonical(m, certs[0]) + Render(m, certs[1..])
  }

  function Repaired(m: Markers, s: string): Option<string>
    requires m.begin != ""
  {
    match Bodies(m, s, 0)
    case None => None
    case Some(bodies) => Some(Render(m, Certs(bodies)))
  }

  /** What normalizePem returns; None stands for the truncated-paste error it throws. */
  function Normalized(raw: string): Option<string> {
    Repaired(PEM, Unescaped(raw))
  }

  /** The complete blocks of a bundle, markers included, up to the first BEGIN without an END. */
  function Blocks(m: Markers, s: string, from: nat): seq<string>
    requires m.begin != "" && from <= |s|
    decreases |s| - from
  {
    match NextBlock(m, s, from)
    case NoBegin => []
    case NoEnd => []
    case Found(b, e) => [s[b..e + |m.end|]] + Blocks(m, s, e + |m.end|)
  }

  // ---- the loops --------------------------------------------------------------------------------

  lemma {:induction false} RenderMore(m: Markers, out: string, body: string, more: seq<string>)
    ensures out + Render(m, Certs([body] + more)) == out + Canonical(m, Squeezed(body)) + Render(m, Certs(more))
  {
    assert ([body] + more)[1..] == more;
    var certs := Certs([body] + more);
    assert certs[0] == Squeezed(body) && certs[1..] == Certs(more);
  }

  /** What remains to be done after `out` has been written. */
  function Finish(m: Markers, out: string, bodies: Option<seq<string>>): Option<string> {
    match bodies
    case None => None
    case Some(bs) => Some(out + Render(m, Certs(bs)))
  }

  lemma FinishMore(m: Markers, out: string, body: string, more: Option<seq<string>>)
    ensures Finish(m, out, Prepend(body, more)) == Finish(m, out + Canonical(m, Squeezed(body)), more)
  {
    if more.Some? {
      RenderMore(m, out, body, more.value);
    }
  }

  lemma FinishEmpty(m: Markers, out: string)
    ensures Finish(m, out, Some([])) == Some(out)
  {
    assert Render(m, Certs([])) == "" && out + "" == out;
  }

  lemma FinishFresh(m: Markers, s: string)
    requires m.begin != ""
    ensures Repaired(m, s) == Finish(m, "", Bodies(m, s, 0))
  {
    if Bodies(m, s, 0).Some? {
      var r := Render(m, Certs(Bodies(m, s, 0).value));
      assert "" + r == r;
    }
  }

  /** The loop of normalizePem. */
  method Repair(m: Markers, unescaped: string) returns (r: Option<string>)
    requires m.begin != ""
    ensures r == Repaired(m, unescaped)
  {
    hide IndexOf, Canonical, Squeezed, Render, Certs;
    var out := "";
    var searchFrom := 0;
    FinishFresh(m, unescaped);
    while true
      invariant searchFrom <= |unescaped|
      invariant Repaired(m, unescaped) == Finish(m, out, Bodies(m, unescaped, searchFrom))
      decreases |unescaped| - searchFrom
    {
      var beginIndex := IndexOf(unescaped, m.begin, searchFrom);
      if beginIndex == -1 {
        FinishEmpty(m, out);
        break;
      }
      var bodyStart := beginIndex + |m.begin|;
      var endIndex := IndexOf(unescaped, m.end, bodyStart);
      if endIndex == -1 {
        return None;
      }
      var body := unescaped[bodyStart..endIndex];
      searchFrom := endIndex + |m.end|;
      FinishMore(m, out, body, Bodies(m, unescaped, searchFrom));
      out := out + Canonical(m, Squeezed(body));
    }
    r := Some(out);
  }

  /** normalizePem. */
  method NormalizePem(raw: string) returns (r: Option<string>)
    ensures r == Normalized(raw)
  {
    var unescaped := raw;
    if HasEscapedNewline(raw) && '\n' !in raw {
      unescaped := Unescape(raw);
    }
    r := Repair(PEM, unescaped);
  }

  lemma Regroup<T>(a: seq<T>, x: T, b: seq<T>)
    ensures a + ([x] + b) == (a + [x]) + b
  {
  }

  /** The splitting loop of describeCaBundle; an empty result is the error it throws next. */
  method SplitBundle(m: Markers, pem: string) returns (blocks: seq<string>)
    requires m.begin != ""
    ensures blocks == Blocks(m, pem, 0)
  {
    hide IndexOf;
    blocks := [];
    var searchFrom := 0;
    while true
      invariant searchFrom <= |pem|
      invariant Blocks(m, pem, 0) == blocks + Blocks(m, pem, searchFrom)
      decreases |pem| - searchFrom
    {
      var beginIndex := IndexOf(pem, m.begin, searchFrom);
      if beginIndex == -1 {
        break;
      }
      var bodyStart := beginIndex + |m.begin|;
      var endIndex := IndexOf(pem, m.end, bodyStart);
      if endIndex == -1 {
        break;
      }
      var blockEnd := endIndex + |m.end|;
      Regroup(blocks, pem[beginIndex..blockEnd], Blocks(m, pem, blockEnd));
      blocks := blocks + [pem[beginIndex..blockEnd]];
      searchFrom := blockEnd;
    }
  }

  // ---- every bundle is a layout of gaps and bodies ----------------------------------------------

  datatype Block = Block(gap: string, body: string)

  /** Block after block, each with some text before it, then `tail`. */
  function Layout(m: Markers, blocks: seq<Block>, tail: string): string {
    if blocks == [] then tail
    else blocks[0].gap + m.begin + blocks[0].body + m.end + Layout(m, blocks[1..], tail)
  }

  /** The first `p` in `s + p` is the one at the end. */
  ghost predicate Leads(s: string, p: string) {
    forall k :: 0 <= k < |s| ==> !At(s + p, p, k)
  }

  ghost predicate BlocksOk(m: Markers, blocks: seq<Block>) {
    forall b :: b in blocks ==> Leads(b.gap, m.begin) && Leads(b.body, m.end)
  }

  function BodiesOf(blocks: seq<Block>): (r: seq<string>)
    ensures |r| == |blocks|
  {
    if blocks == [] then [] else [blocks[0].body] + BodiesOf(blocks[1..])
  }

  /** A BEGIN that no END follows. */
  ghost predicate Unfinished(m: Markers, tail: string) {
    exists gap: string, rest: string ::
      tail == gap + m.begin + rest && Leads(gap, m.begin) && Lacks(rest, m.end)
  }

  ghost predicate Lacks(s: string, p: string) {
    forall k :: 0 <= k <= |s| ==> !At(s, p, k)
  }

  lemma AtInner(pre: string, s: string, t: string, p: string, k: nat)
    requires k + |p| <= |s|
    ensures At(pre + s + t, p, |pre| + k) <==> At(s, p, k)
  {
    assert (pre + s + t)[|pre| + k..|pre| + k + |p|] == s[k..k + |p|];
  }

  lemma LeadingIndex(pre: string, s: string, p: string, t: string)
    requires Leads(s, p)
    ensures IndexOf(pre + (s + p) + t, p, |pre|) == |pre| + |s|
  {
    hide IndexOf;
    var u := pre + (s + p) + t;
    assert (s + p)[|s|..|s| + |p|] == p;
    AtInner(pre, s + p, t, p, |s|);
    forall k: nat | |pre| <= k < |pre| + |s| ensures !At(u, p, k) {
      AtInner(pre, s + p, t, p, k - |pre|);
    }
    IndexOfIsFirst(u, p, |pre|);
  }

  lemma LackingIndex(pre: string, s: string, p: string)
    ensures IndexOf(pre + s, p, |pre|) == -1 <==> Lacks(s, p)
  {
    hide IndexOf;
    var u := pre + s;
    assert u == pre + s + "";
    IndexOfIsFirst(u, p, |pre|);
    forall k: nat | k <= |s| ensures At(s, p, k) <==> At(u, p, |pre| + k) {
      if k + |p| <= |s| {
        AtInner(pre, s, "", p, k);
      }
    }
    if IndexOf(u, p, |pre|) != -1 {
      assert At(s, p, IndexOf(u, p, |pre|) - |pre|);
    }
  }

  /** Searching past `pre` finds the block there. */
  lemma FoundIn(m: Markers, pre: string, b: Block, t: string)
    requires m.begin != "" && Leads(b.gap, m.begin) && Leads(b.body, m.end)
    ensures NextBlock(m, pre + b.gap + m.begin + b.body + m.end + t, |pre|)
         == Found(|pre| + |b.gap|, |pre| + |b.gap| + |m.begin| + |b.body|)
  {
    hide IndexOf;
    var s := pre + b.gap + m.begin + b.body + m.end + t;
    var inner := pre + b.gap + m.begin;
    FoundSlices(m, pre, b, t);
    LeadingIndex(pre, b.gap, m.begin, b.body + m.end + t);
    LeadingIndex(inner, b.body, m.end, t);
  }

  lemma FoundSlices(m: Markers, pre: string, b: Block, t: string)
    ensures var s := pre + b.gap + m.begin + b.body + m.end + t;
            && s == pre + (b.gap + m.begin) + (b.body + m.end + t)
            && s == pre + b.gap + m.begin + (b.body + m.end) + t
  {
  }

  function Framed(m: Markers, body: string): string {
    m.begin + body + m.end
  }

  function FramedAll(m: Markers, bodies: seq<string>): seq<string> {
    if bodies == [] then [] else [Framed(m, bodies[0])] + FramedAll(m, bodies[1..])
  }

  lemma BlockSlices(m: Markers, pre: string, b: Block, t: string)
    ensures var s := pre + b.gap + m.begin + b.body + m.end + t;
            var i := |pre| + |b.gap|;
            var e := i + |m.begin| + |b.body|;
            && s == pre + (b.gap + m.begin + b.body + m.end + t)
            && s[i + |m.begin|..e] == b.body
            && s[i..e + |m.end|] == Framed(m, b.body)
  {
  }

  /** The round of either loop that meets a block. */
  lemma ScanOfBlock(m: Markers, pre: string, b: Block, t: string)
    requires m.begin != "" && Leads(b.gap, m.begin) && Leads(b.body, m.end)
    ensures var s := pre + (b.gap + m.begin + b.body + m.end + t);
            var next := pre + b.gap + m.begin + b.body + m.end;
            && s == next + t
            && Bodies(m, s, |pre|) == Prepend(b.body, Bodies(m, next + t, |next|))
            && Blocks(m, s, |pre|) == [Framed(m, b.body)] + Blocks(m, next + t, |next|)
  {
    hide IndexOf;
    FoundIn(m, pre, b, t);
    hide NextBlock;
    BlockSlices(m, pre, b, t);
  }

  lemma {:induction false} ScanOfLayout(m: Markers, pre: string, blocks: seq<Block>, tail: string)
    requires m.begin != "" && BlocksOk(m, blocks) && Lacks(tail, m.begin)
    ensures var s := pre + Layout(m, blocks, tail);
            && Bodies(m, s, |pre|) == Some(BodiesOf(blocks))
            && Blocks(m, s, |pre|) == FramedAll(m, BodiesOf(blocks))
    decreases |blocks|
  {
    hide IndexOf;
    if blocks == [] {
      LackingIndex(pre, tail, m.begin);
    } else {
      var b, t := blocks[0], Layout(m, blocks[1..], tail);
      assert b in blocks;
      ScanOfBlock(m, pre, b, t);
      hide Bodies, Blocks, NextBlock, Framed;
      ScanOfLayout(m, pre + b.gap + m.begin + b.body + m.end, blocks[1..], tail);
    }
  }

  lemma {:induction false} UnfinishedLayoutFails(m: Markers, pre: string, blocks: seq<Block>, tail: string)
    requires m.begin != "" && BlocksOk(m, blocks) && Unfinished(m, tail)
    ensures Bodies(m, pre + Layout(m, blocks, tail), |pre|) == None
    decreases |blocks|
  {
    hide IndexOf;
    if blocks == [] {
      UnfinishedSearch(m, pre, tail);
    } else {
      var b, t := blocks[0], Layout(m, blocks[1..], tail);
      assert b in blocks;
      ScanOfBlock(m, pre, b, t);
      UnfinishedLayoutFails(m, pre + b.gap + m.begin + b.body + m.end, blocks[1..], tail);
    }
  }

  lemma UnfinishedSearch(m: Markers, pre: string, tail: string)
    requires m.begin != "" && Unfinished(m, tail)
    ensures NextBlock(m, pre + tail, |pre|) == NoEnd
  {
    hide IndexOf;
    var gap: string, rest: string :|
      tail == gap + m.begin + rest && Leads(gap, m.begin) && Lacks(rest, m.end);
    assert pre + tail == pre + (gap + m.begin) + rest;
    LeadingIndex(pre, gap, m.begin, rest);
    assert pre + tail == (pre + gap + m.begin) + rest;
    LackingIndex(pre + gap + m.begin, rest, m.end);
  }

  lemma IndexLeads(s: string, p: string, from: nat)
    requires from <= |s| && IndexOf(s, p, from) != -1
    ensures var i := IndexOf(s, p, from); Leads(s[from..i], p) && s[from..] == s[from..i] + p + s[i + |p|..]
  {
    hide IndexOf;
    var i := IndexOf(s, p, from);
    IndexOfIsFirst(s, p, from);
    assert s[i..i + |p|] == p;
    var gap := s[from..i];
    assert s == s[..from] + (gap + p) + s[i + |p|..];
    forall k: nat | k < |gap| ensures !At(gap + p, p, k) {
      if k + |p| <= |gap + p| {
        AtInner(s[..from], gap + p, s[i + |p|..], p, k);
      }
    }
  }

  /** Every text is a layout, followed either by no BEGIN or by a BEGIN without an END. */
  lemma {:induction false} EveryTextIsALayout(m: Markers, s: string, from: nat)
    returns (blocks: seq<Block>, tail: string)
    requires m.begin != "" && from <= |s|
    ensures s[from..] == Layout(m, blocks, tail) && BlocksOk(m, blocks)
    ensures Lacks(tail, m.begin) || Unfinished(m, tail)
    decreases |s| - from
  {
    hide IndexOf, NextBlock, Leads, Lacks, Unfinished;
    match NextBlock(m, s, from)
    case NoBegin =>
      blocks, tail := [], s[from..];
      NoBeginLacks(m, s, from);
    case NoEnd =>
      blocks, tail := [], s[from..];
      NoEndIsUnfinished(m, s, from);
    case Found(b, e) =>
      blocks, tail := EveryTextIsALayout(m, s, e + |m.end|);
      var first := Block(s[from..b], s[b + |m.begin|..e]);
      FoundSplits(m, s, from);
      assert ([first] + blocks)[1..] == blocks;
      blocks := [first] + blocks;
  }

  lemma NoBeginLacks(m: Markers, s: string, from: nat)
    requires from <= |s| && NextBlock(m, s, from).NoBegin?
    ensures Lacks(s[from..], m.begin)
  {
    hide IndexOf;
    assert s == s[..from] + s[from..];
    LackingIndex(s[..from], s[from..], m.begin);
  }

  lemma NoEndIsUnfinished(m: Markers, s: string, from: nat)
    requires from <= |s| && NextBlock(m, s, from).NoEnd?
    ensures Unfinished(m, s[from..])
  {
    hide IndexOf;
    var b := IndexOf(s, m.begin, from) + |m.begin|;
    IndexLeads(s, m.begin, from);
    assert s == s[..b] + s[b..];
    LackingIndex(s[..b], s[b..], m.end);
  }

  lemma FoundSplits(m: Markers, s: string, from: nat)
    requires from <= |s| && NextBlock(m, s, from).Found?
    ensures var f := NextBlock(m, s, from);
            && Leads(s[from..f.begin], m.begin) && Leads(s[f.begin + |m.begin|..f.end], m.end)
            && s[from..] == s[from..f.begin] + m.begin + s[f.begin + |m.begin|..f.end] + m.end + s[f.end + |m.end|..]
  {
    hide IndexOf;
    var f := NextBlock(m, s, from);
    IndexLeads(s, m.begin, from);
    IndexLeads(s, m.end, f.begin + |m.begin|);
  }

  /** Complete blocks, and then a BEGIN that is never closed. */
  ghost predicate Truncated(m: Markers, s: string) {
    exists blocks: seq<Block>, tail: string ::
      s == Layout(m, blocks, tail) && BlocksOk(m, blocks) && Unfinished(m, tail)
  }

  /** normalizePem throws exactly on a truncated paste. */
  lemma FailsExactlyWhenTruncated(raw: string)
    ensures Normalized(raw) == None <==> Truncated(PEM, Unescaped(raw))
  {
    var s, m := Unescaped(raw), PEM;
    RepairFailsExactly(m, s);
  }

  lemma RepairFailsExactly(m: Markers, s: string)
    requires m.begin != ""
    ensures Repaired(m, s) == None <==> Truncated(m, s)
  {
    hide IndexOf;
    if Truncated(m, s) {
      var blocks: seq<Block>, tail: string :|
        s == Layout(m, blocks, tail) && BlocksOk(m, blocks) && Unfinished(m, tail);
      assert "" + s == s;
      UnfinishedLayoutFails(m, "", blocks, tail);
    } else {
      var blocks, tail := EveryTextIsALayout(m, s, 0);
      assert s[0..] == s && "" + s == s;
      ScanOfLayout(m, "", blocks, tail);
    }
  }

  // ---- the canonical form scans as itself -------------------------------------------------------

  /** What both markers have and the repair relies on. */
  predicate MarkerOk(p: string) {
    p != "" && p[0] == '-' && ' ' in p && '\n' !in p && '\\' !in p && |p| <= 64
  }

  predicate MarkersOk(m: Markers) {
    MarkerOk(m.begin) && MarkerOk(m.end)
  }

  lemma PemMarkersOk()
    ensures MarkersOk(PEM)
  {
    BeginOk(PEM.begin);
    EndOk(PEM.end);
  }

  lemma BeginOk(p: string)
    requires p == "-----BEGIN CERTIFICATE-----"
    ensures MarkerOk(p)
  {
    assert |p| == 27 && p[10] == ' ' && p[0] == '-';
    assert forall i :: 0 <= i < |p| ==> p[i] == '-' || p[i] == ' ' || 'A' <= p[i] <= 'Z';
  }

  lemma EndOk(p: string)
    requires p == "-----END CERTIFICATE-----"
    ensures MarkerOk(p)
  {
    assert |p| == 25 && p[8] == ' ' && p[0] == '-';
    assert forall i :: 0 <= i < |p| ==> p[i] == '-' || p[i] == ' ' || 'A' <= p[i] <= 'Z';
  }

  predicate Unspaced(s: string) {
    forall c :: c in s ==> !IsSpace(c)
  }

  predicate AllUnspaced(certs: seq<string>) {
    forall c :: c in certs ==> Unspaced(c)
  }

  /** Text that ends its line and has no blank cannot run into a marker. */
  predicate Lined(s: string) {
    ' ' !in s && (s != "" ==> s[|s| - 1] == '\n')
  }

  lemma LinedLeads(s: string, p: string)
    requires Lined(s) && MarkerOk(p)
    ensures Leads(s, p) && Lacks(s, p)
  {
    var j :| 0 <= j < |p| && p[j] == ' ';
    forall k: nat | k < |s| ensures !At(s + p, p, k) && !At(s, p, k) {
      if k + j < |s| {
        assert s[k + j] in s;
        assert (s + p)[k + j] == s[k + j];
        NotAt(s + p, p, k, j);
        NotAt(s, p, k, j);
      } else {
        assert (s + p)[|s| - 1] == '\n' && p[|s| - 1 - k] in p;
        NotAt(s + p, p, k, |s| - 1 - k);
      }
    }
  }

  lemma NotAt(s: string, p: string, k: nat, j: nat)
    requires j < |p| && k + j < |s| && s[k + j] != p[j]
    ensures !At(s, p, k)
  {
    if k + |p| <= |s| {
      assert s[k..k + |p|][j] == s[k + j];
    }
  }

  function CanonicalBody(cert: string): string {
    "\n" + JoinLines(Wrapped(cert)) + "\n"
  }

  function CanonicalBlocks(gap: string, certs: seq<string>): seq<Block>
    decreases |certs|
  {
    if certs == [] then []
    else [Block(gap, CanonicalBody(certs[0]))] + CanonicalBlocks("\n", certs[1..])
  }

  lemma {:induction false} RenderIsALayout(m: Markers, gap: string, certs: seq<string>)
    ensures gap + Render(m, certs)
         == Layout(m, CanonicalBlocks(gap, certs), if certs == [] then gap else "\n")
    decreases |certs|
  {
    if certs == [] {
      assert gap + "" == gap;
    } else {
      RenderIsALayout(m, "\n", certs[1..]);
      var blocks := CanonicalBlocks(gap, certs);
      assert blocks[0] == Block(gap, CanonicalBody(certs[0])) && blocks[1..] == CanonicalBlocks("\n", certs[1..]);
      CanonicalSplits(m, gap, certs[0], Render(m, certs[1..]));
    }
  }

  lemma CanonicalSplits(m: Markers, gap: string, cert: string, more: string)
    ensures gap + (Canonical(m, cert) + more) == gap + m.begin + CanonicalBody(cert) + m.end + ("\n" + more)
  {
    hide Wrapped, JoinLines;
  }

  lemma {:induction false} JoinHasNoBlank(lines: seq<string>)
    requires AllUnspaced(lines)
    ensures ' ' !in JoinLines(lines)
  {
    if lines != [] {
      assert lines[0] in lines;
      if |lines| > 1 {
        JoinHasNoBlank(lines[1..]);
      }
    }
  }

  lemma {:induction false} WrappedUnspaced(s: string)
    requires Unspaced(s)
    ensures AllUnspaced(Wrapped(s))
  {
    if |s| > 64 {
      WrappedUnspaced(s[64..]);
    }
  }

  lemma {:induction false} CanonicalBlocksOk(m: Markers, gap: string, certs: seq<string>)
    requires MarkersOk(m) && Lined(gap) && AllUnspaced(certs)
    ensures BlocksOk(m, CanonicalBlocks(gap, certs))
    decreases |certs|
  {
    if certs != [] {
      assert certs[0] in certs;
      WrappedUnspaced(certs[0]);
      JoinHasNoBlank(Wrapped(certs[0]));
      LinedLeads(gap, m.begin);
      LinedLeads(CanonicalBody(certs[0]), m.end);
      CanonicalBlocksOk(m, "\n", certs[1..]);
    }
  }

  lemma {:induction false} SqueezedAppend(a: string, b: string)
    ensures Squeezed(a + b) == Squeezed(a) + Squeezed(b)
  {
    if a == "" {
      assert a + b == b;
    } else {
      assert (a + b)[1..] == a[1..] + b;
      SqueezedAppend(a[1..], b);
    }
  }

  lemma {:induction false} UnspacedIsSqueezed(s: string)
    requires Unspaced(s)
    ensures Squeezed(s) == s
  {
    if s != "" {
      assert s[0] in s;
      UnspacedIsSqueezed(s[1..]);
    }
  }

  lemma {:induction false} SqueezedWrapped(s: string)
    requires Unspaced(s)
    ensures Squeezed(JoinLines(Wrapped(s))) == s
  {
    if |s| <= 64 {
      UnspacedIsSqueezed(s);
    } else {
      SqueezedWrapped(s[64..]);
      UnspacedIsSqueezed(s[..64]);
      JoinFirst(s);
      SqueezedJoin(s[..64], JoinLines(Wrapped(s[64..])));
    }
  }

  lemma JoinFirst(s: string)
    requires |s| > 64
    ensures JoinLines(Wrapped(s)) == s[..64] + "\n" + JoinLines(Wrapped(s[64..]))
  {
    assert Wrapped(s)[1..] == Wrapped(s[64..]);
  }

  lemma SqueezedJoin(a: string, b: string)
    ensures Squeezed(a + "\n" + b) == Squeezed(a) + Squeezed(b)
  {
    hide Squeezed;
    SqueezedAppend(a + "\n", b);
    SqueezedAppend(a, "\n");
    NewlineSqueezes();
    assert Squeezed(a) + "" == Squeezed(a);
  }

  lemma NewlineSqueezes()
    ensures Squeezed("\n") == ""
  {
    assert "\n"[1..] == "";
  }

  lemma CanonicalBodySqueezes(cert: string)
    requires Unspaced(cert)
    ensures Squeezed(CanonicalBody(cert)) == cert
  {
    hide Squeezed;
    var j := JoinLines(Wrapped(cert));
    SqueezedWrapped(cert);
    SqueezedAppend("\n" + j, "\n");
    SqueezedAppend("\n", j);
    NewlineSqueezes();
    assert "" + j == j && Squeezed(j) + "" == Squeezed(j);
  }

  lemma {:induction false} CanonicalBodies(gap: string, certs: seq<string>)
    requires AllUnspaced(certs)
    ensures Certs(BodiesOf(CanonicalBlocks(gap, certs))) == certs
    decreases |certs|
  {
    hide Squeezed, CanonicalBody;
    if certs != [] {
      assert certs[0] in certs;
      CanonicalBodySqueezes(certs[0]);
      CanonicalBodies("\n", certs[1..]);
      var blocks := CanonicalBlocks(gap, certs);
      assert blocks[1..] == CanonicalBlocks("\n", certs[1..]);
      assert BodiesOf(blocks)[1..] == BodiesOf(blocks[1..]);
    }
  }

  /** The scan of a canonical bundle finds its certificates, and the splitter its blocks. */
  lemma ScanOfRender(m: Markers, certs: seq<string>)
    requires MarkersOk(m) && AllUnspaced(certs)
    ensures var bodies := Bodies(m, Render(m, certs), 0);
            bodies.Some? && Certs(bodies.value) == certs
    ensures Blocks(m, Render(m, certs), 0) == FramedAll(m, BodiesOf(CanonicalBlocks("", certs)))
  {
    hide IndexOf;
    var blocks := CanonicalBlocks("", certs);
    var tail := if certs == [] then "" else "\n";
    RenderIsALayout(m, "", certs);
    CanonicalBlocksOk(m, "", certs);
    LinedLeads(tail, m.begin);
    CanonicalBodies("", certs);
    assert "" + Layout(m, blocks, tail) == Layout(m, blocks, tail) == Render(m, certs);
    ScanOfLayout(m, "", blocks, tail);
  }

  lemma {:induction false} CertsUnspaced(bodies: seq<string>)
    ensures AllUnspaced(Certs(bodies))
  {
    if bodies != [] {
      CertsUnspaced(bodies[1..]);
    }
  }

  // ---- what the repair promises -----------------------------------------------------------------

  lemma {:induction false} RenderHasNewline(m: Markers, certs: seq<string>)
    requires certs != []
    ensures '\n' in Render(m, certs)
  {
    var c := Canonical(m, certs[0]);
    assert c[|c| - 1] == '\n';
    assert (c + Render(m, certs[1..]))[|c| - 1] == '\n';
  }

  lemma CanonicalIsUnescaped(m: Markers, certs: seq<string>)
    ensures Unescaped(Render(m, certs)) == Render(m, certs)
  {
    if certs != [] {
      RenderHasNewline(m, certs);
    }
  }

  /** Repairing a repaired bundle changes nothing, and its certificates are those of the paste, in order. */
  lemma RepairIsIdempotent(raw: string)
    requires Normalized(raw).Some?
    ensures var bundle := Normalized(raw).value;
            && Normalized(bundle) == Some(bundle)
            && Bodies(PEM, bundle, 0).Some?
            && Certs(Bodies(PEM, bundle, 0).value) == Certs(Bodies(PEM, Unescaped(raw), 0).value)
  {
    hide IndexOf;
    var m := PEM;
    var bodies := Bodies(m, Unescaped(raw), 0).value;
    PemMarkersOk();
    CertsUnspaced(bodies);
    ScanOfRender(m, Certs(bodies));
    CanonicalIsUnescaped(m, Certs(bodies));
  }

  function Terminated(blocks: seq<string>): string {
    if blocks == [] then "" else blocks[0] + "\n" + Terminated(blocks[1..])
  }

  lemma {:induction false} RenderIsItsBlocks(m: Markers, gap: string, certs: seq<string>)
    ensures Render(m, certs) == Terminated(FramedAll(m, BodiesOf(CanonicalBlocks(gap, certs))))
    ensures |FramedAll(m, BodiesOf(CanonicalBlocks(gap, certs)))| == |certs|
    decreases |certs|
  {
    if certs != [] {
      RenderIsItsBlocks(m, "\n", certs[1..]);
      var blocks := CanonicalBlocks(gap, certs);
      assert blocks[0].body == CanonicalBody(certs[0]) && blocks[1..] == CanonicalBlocks("\n", certs[1..]);
      CanonicalSplits(m, "", certs[0], "");
      CanonicalIsFramed(m, certs[0]);
    }
  }

  lemma CanonicalIsFramed(m: Markers, cert: string)
    ensures Canonical(m, cert) == Framed(m, CanonicalBody(cert)) + "\n"
  {
    hide Wrapped, JoinLines;
  }

  /** The splitter cuts a repaired bundle into exactly its blocks: one for each block of the paste. */
  lemma SplitterFindsEveryBlock(raw: string)
    requires Normalized(raw).Some?
    ensures var blocks := Blocks(PEM, Normalized(raw).value, 0);
            && Terminated(blocks) == Normalized(raw).value
            && |blocks| == |Bodies(PEM, Unescaped(raw), 0).value|
  {
    hide IndexOf;
    var m := PEM;
    var certs := Certs(Bodies(m, Unescaped(raw), 0).value);
    PemMarkersOk();
    CertsUnspaced(Bodies(m, Unescaped(raw), 0).value);
    ScanOfRender(m, certs);
    RenderIsItsBlocks(m, "", certs);
  }

  // ---- no long lines ----------------------------------------------------------------------------

  /** Every stretch without a newline has at most 64 characters. */
  ghost predicate Narrow(s: string) {
    forall i, j :: 0 <= i <= j <= |s| && '\n' !in s[i..j] ==> j - i <= 64
  }

  /** A short line and narrow text after it. */
  lemma NarrowLine(line: string, rest: string)
    requires |line| <= 64 && Narrow(rest)
    ensures Narrow(line + "\n" + rest)
  {
    var s, n := line + "\n" + rest, |line| + 1;
    forall i, j | 0 <= i <= j <= |s| ensures '\n' !in s[i..j] ==> j - i <= 64 {
      if i < n <= j {
        assert s[i..j][n - 1 - i] == '\n';
      } else if n <= i {
        assert s[n..] == rest;
        assert s[i..j] == s[n..][i - n..j - n];
      }
    }
  }

  lemma {:induction false} NarrowJoin(lines: seq<string>, rest: string)
    requires Narrow(rest) && forall l :: l in lines ==> |l| <= 64
    ensures Narrow(JoinLines(lines) + "\n" + rest)
  {
    if lines == [] {
      NarrowLine("", rest);
    } else if |lines| == 1 {
      NarrowLine(lines[0], rest);
    } else {
      NarrowJoin(lines[1..], rest);
      var more := JoinLines(lines[1..]) + "\n" + rest;
      NarrowLine(lines[0], more);
      assert JoinLines(lines) + "\n" + rest == lines[0] + "\n" + more;
    }
  }

  lemma NothingIsNarrow()
    ensures Narrow("")
  {
  }

  lemma {:induction false} RenderIsNarrow(m: Markers, certs: seq<string>)
    requires MarkersOk(m)
    ensures Narrow(Render(m, certs))
  {
    hide Narrow, Wrapped, JoinLines;
    if certs == [] {
      NothingIsNarrow();
    } else {
      RenderIsNarrow(m, certs[1..]);
      var rest := Render(m, certs[1..]);
      NarrowLine(m.end, rest);
      NarrowJoin(Wrapped(certs[0]), m.end + "\n" + rest);
      var inner := JoinLines(Wrapped(certs[0])) + "\n" + (m.end + "\n" + rest);
      NarrowLine(m.begin, inner);
      assert Render(m, certs) == m.begin + "\n" + inner;
    }
  }

  lemma RepairedLinesAreShort(raw: string)
    requires Normalized(raw).Some?
    ensures Narrow(Normalized(raw).value)
  {
    hide IndexOf;
    var m := PEM;
    PemMarkersOk();
    RenderIsNarrow(m, Certs(Bodies(m, Unescaped(raw), 0).value));
  }

  // ---- how the paste was damaged does not matter ------------------------------------------------

  /** Text with no dash in it: base64, white space, most comments. */
  predicate Plain(s: string) {
    '-' !in s
  }

  predicate PlainBlocks(blocks: seq<Block>) {
    forall b :: b in blocks ==> Plain(b.gap) && Plain(b.body)
  }

  lemma PlainLeads(s: string, p: string)
    requires Plain(s) && MarkerOk(p)
    ensures Leads(s, p)
  {
    forall k: nat | k < |s| ensures !At(s + p, p, k) {
      assert s[k] in s;
      assert (s + p)[k] == s[k];
      NotAt(s + p, p, k, 0);
    }
  }

  lemma PlainLacks(s: string, p: string)
    requires Plain(s) && MarkerOk(p)
    ensures Lacks(s, p)
  {
    forall k: nat | k < |s| ensures !At(s, p, k) {
      assert s[k] in s;
      NotAt(s, p, k, 0);
    }
  }

  /** Base64 and text between certificates that have no dashes never hide or fake a marker. */
  lemma PlainBlocksAreOk(m: Markers, blocks: seq<Block>, tail: string)
    requires MarkersOk(m) && PlainBlocks(blocks) && Plain(tail)
    ensures BlocksOk(m, blocks) && Lacks(tail, m.begin)
  {
    forall b | b in blocks ensures Leads(b.gap, m.begin) && Leads(b.body, m.end) {
      PlainLeads(b.gap, m.begin);
      PlainLeads(b.body, m.end);
    }
    PlainLacks(tail, m.begin);
  }

  lemma LayoutRepairs(m: Markers, blocks: seq<Block>, tail: string)
    requires MarkersOk(m) && BlocksOk(m, blocks) && Lacks(tail, m.begin)
    ensures Repaired(m, Layout(m, blocks, tail)) == Some(Render(m, Certs(BodiesOf(blocks))))
  {
    hide IndexOf, BlocksOk, Lacks;
    ScanOfLayout(m, "", blocks, tail);
    assert "" + Layout(m, blocks, tail) == Layout(m, blocks, tail);
  }

  /** Newlines turned into a backslash and an n, as an environment variable often stores them. */
  function Escaped(s: string): string {
    if s == "" then "" else (if s[0] == '\n' then "\\n" else [s[0]]) + Escaped(s[1..])
  }

  lemma {:induction false} UnescapeEscaped(s: string)
    requires '\\' !in s
    ensures Unescape(Escaped(s)) == s && '\n' !in Escaped(s)
  {
    if s != "" {
      assert s[0] in s;
      UnescapeEscaped(s[1..]);
      var e := Escaped(s[1..]);
      if s[0] == '\n' {
        assert Escaped(s) == "\\n" + e && Escaped(s)[0..2] == "\\n" && Escaped(s)[2..] == e;
      } else {
        assert Escaped(s)[0] == s[0] && Escaped(s)[1..] == e;
        NotAt(Escaped(s), "\\n", 0, 0);
      }
    }
  }

  lemma {:induction false} EscapedHasBackslash(s: string)
    requires '\n' in s
    ensures exists k: nat :: At(Escaped(s), "\\n", k)
  {
    var e := Escaped(s[1..]);
    if s[0] == '\n' {
      assert Escaped(s)[0..2] == "\\n";
      assert At(Escaped(s), "\\n", 0);
    } else {
      EscapedHasBackslash(s[1..]);
      var k: nat :| At(e, "\\n", k);
      assert Escaped(s) == [s[0]] + e + "";
      AtInner([s[0]], e, "", "\\n", k);
      assert At(Escaped(s), "\\n", 1 + k);
    }
  }

  lemma {:induction false} NoNewlineNoEscape(s: string)
    requires '\n' !in s
    ensures Escaped(s) == s
  {
    if s != "" {
      assert s[0] in s;
      NoNewlineNoEscape(s[1..]);
    }
  }

  lemma AtHead(s: string, p: string, k: nat)
    requires At(s, p, k) && p != ""
    ensures p[0] in s
  {
    assert s[k..k + |p|][0] == s[k];
  }

  lemma NoBackslashNoEscape(s: string)
    requires '\\' !in s
    ensures !HasEscapedNewline(s)
  {
    IndexOfIsFirst(s, "\\n", 0);
    if HasEscapedNewline(s) {
      AtHead(s, "\\n", IndexOf(s, "\\n", 0));
    }
  }

  /** Escaping the newlines of a text that has no backslash is undone before the scan. */
  lemma EscapingIsUndone(s: string)
    requires '\\' !in s
    ensures Unescaped(Escaped(s)) == Unescaped(s) == s
  {
    NoBackslashNoEscape(s);
    UnescapeEscaped(s);
    if '\n' in s {
      EscapedHasBackslash(s);
      IndexOfIsFirst(Escaped(s), "\\n", 0);
      hide IndexOf;
      assert HasEscapedNewline(Escaped(s));
    } else {
      NoNewlineNoEscape(s);
    }
  }

  /**
   * Whatever white space a paste kept, lost or gained inside its certificates, whatever stands between them
   * short of a marker, and whether its newlines were escaped: the repair depends on the certificates only.
   */
  lemma OnlyTheCertificatesMatter(blocks: seq<Block>, tail: string)
    requires BlocksOk(PEM, blocks) && Lacks(tail, PEM.begin)
    ensures var paste := Layout(PEM, blocks, tail);
            && ('\n' in paste || !HasEscapedNewline(paste) ==>
                  Normalized(paste) == Some(Render(PEM, Certs(BodiesOf(blocks)))))
            && ('\\' !in paste ==> Normalized(Escaped(paste)) == Normalized(paste))
  {
    hide IndexOf, BlocksOk, Lacks;
    PemMarkersOk();
    LayoutRepairs(PEM, blocks, tail);
    if '\\' !in Layout(PEM, blocks, tail) {
      EscapingIsUndone(Layout(PEM, blocks, tail));
    }
  }
}
