/** When the tags of converted markdown nest (mdInlineHtml, src/core/render.ts). */
module TagNesting {
  import opened Types
  import opened Text
  import opened Markdown
  import opened Html
  import opened InlineHtml

  // ---- tags on a stack --------------------------------------------------------------------------

  datatype Tag = Opening(pair: TagPair) | Closing(pair: TagPair)

  /** The tag that begins at the head of `s`. */
  function TagAt(s: string): seq<Tag> {
    if B.open <= s then [Opening(B)]
    else if B.close <= s then [Closing(B)]
    else if CODE.open <= s then [Opening(CODE)]
    else if CODE.close <= s then [Closing(CODE)]
    else if A.open <= s then [Opening(A)]
    else if A.close <= s then [Closing(A)]
    else []
  }

  /** The tags of `s`, in order. */
  function Tags(s: string): seq<Tag> {
    if s == "" then [] else TagAt(s) + Tags(s[1..])
  }

  /** What reading tags leaves on the stack; None when a closing tag meets another open one, or none. */
  function Read(stack: seq<TagPair>, ts: seq<Tag>): Option<seq<TagPair>>
    decreases |ts|
  {
    if ts == [] then Some(stack)
    else
      match ts[0]
      case Opening(p) => Read([p] + stack, ts[1..])
      case Closing(p) => if stack != [] && stack[0] == p then Read(stack[1..], ts[1..]) else None
  }

  /** Every closing tag closes the tag opened last, and all tags are closed in the end. */
  predicate Nests(s: string) {
    Read([], Tags(s)) == Some([])
  }

  lemma {:induction false} ReadAppend(stack: seq<TagPair>, a: seq<Tag>, b: seq<Tag>)
    ensures Read(stack, a + b) ==
            match Read(stack, a)
            case None => None
            case Some(after) => Read(after, b)
    decreases |a|
  {
    if a == [] {
      assert a + b == b;
    } else {
      assert (a + b)[0] == a[0] && (a + b)[1..] == a[1..] + b;
      match a[0]
      case Opening(p) => ReadAppend([p] + stack, a[1..], b);
      case Closing(p) =>
        if stack != [] && stack[0] == p {
          ReadAppend(stack[1..], a[1..], b);
        }
    }
  }

  predicate Lacks(p: TagPair, ts: seq<Tag>) {
    forall t :: t in ts ==> t.pair != p
  }

  /** Tags without `p` never reach below an open `p`. */
  lemma {:induction false} ReadsAbove(p: TagPair, top: seq<TagPair>, below: seq<TagPair>, ts: seq<Tag>)
    requires Lacks(p, ts) && p !in top
    ensures Read(top + [p] + below, ts) ==
            match Read(top, ts)
            case None => None
            case Some(after) => Some(after + [p] + below)
    ensures Read(top, ts).Some? ==> p !in Read(top, ts).value
    decreases |ts|
  {
    if ts != [] {
      var stack := top + [p] + below;
      assert ts[0] in ts;
      match ts[0]
      case Opening(q) =>
        assert [q] + stack == ([q] + top) + [p] + below;
        ReadsAbove(p, [q] + top, below, ts[1..]);
      case Closing(q) =>
        if top != [] && top[0] == q {
          assert stack[1..] == top[1..] + [p] + below;
          ReadsAbove(p, top[1..], below, ts[1..]);
        } else {
          assert stack[0] == if top == [] then p else top[0];
        }
    }
  }

  /** Reading what nests on its own leaves any stack as it was. */
  lemma {:induction false} ReadsOn(top: seq<TagPair>, below: seq<TagPair>, ts: seq<Tag>)
    requires Read(top, ts).Some?
    ensures Read(top + below, ts) == Some(Read(top, ts).value + below)
    decreases |ts|
  {
    if ts != [] {
      match ts[0]
      case Opening(q) =>
        assert [q] + (top + below) == ([q] + top) + below;
        ReadsOn([q] + top, below, ts[1..]);
      case Closing(q) =>
        assert (top + below)[0] == top[0] && (top + below)[1..] == top[1..] + below;
        ReadsOn(top[1..], below, ts[1..]);
    }
  }

  /** A pair around tags that do not contain it reads exactly when those nest on their own. */
  lemma ReadsWrapped(p: TagPair, stack: seq<TagPair>, ts: seq<Tag>)
    requires Lacks(p, ts)
    ensures Read(stack, [Opening(p)] + ts + [Closing(p)]) == if Read([], ts) == Some([]) then Some(stack) else None
    ensures Read([], ts) == Some([]) ==> Read(stack, ts) == Some(stack)
  {
    var inner := ts + [Closing(p)];
    assert [Opening(p)] + ts + [Closing(p)] == [Opening(p)] + inner;
    assert ([Opening(p)] + inner)[1..] == inner;
    ReadsAbove(p, [], stack, ts);
    assert [] + [p] + stack == [p] + stack;
    ReadAppend([p] + stack, ts, [Closing(p)]);
    if Read([], ts).Some? {
      var after := Read([], ts).value;
      ReadsOn([], stack, ts);
      assert [] + stack == stack;
      ReadsClosing(p, after, stack);
    }
  }

  lemma ReadsClosing(p: TagPair, top: seq<TagPair>, below: seq<TagPair>)
    requires p !in top
    ensures Read(top + [p] + below, [Closing(p)]) == if top == [] then Some(below) else None
  {
    var stack := top + [p] + below;
    assert stack[0] == if top == [] then p else top[0];
    if top == [] {
      assert stack[1..] == below;
      assert Read(below, []) == Some(below);
    }
  }

  // ---- tags of tame strings ---------------------------------------------------------------------

  lemma TagAtFits(marks: set<char>, a: string, b: string, inTag: bool)
    requires IsTame(marks, a, inTag) && a != ""
    ensures TagAt(a + b) == TagAt(a)
  {
    hide IsTame;
    TagFits(marks, B.open, a, b, inTag);
    TagFits(marks, B.close, a, b, inTag);
    TagFits(marks, CODE.open, a, b, inTag);
    TagFits(marks, CODE.close, a, b, inTag);
    TagFits(marks, A.open, a, b, inTag);
    TagFits(marks, A.close, a, b, inTag);
  }

  lemma {:induction false} TagsAppend(marks: set<char>, a: string, b: string, inTag: bool)
    requires IsTame(marks, a, inTag)
    ensures Tags(a + b) == Tags(a) + Tags(b)
  {
    hide TagAt;
    if a == "" {
      assert a + b == b;
    } else {
      TagAtFits(marks, a, b, inTag);
      assert (a + b)[1..] == a[1..] + b;
      TagsAppend(marks, a[1..], b, if inTag then a[0] != '>' else a[0] == '<');
    }
  }

  lemma NoTagAt(s: string)
    requires s != "" && s[0] != '<'
    ensures TagAt(s) == []
  {
  }

  lemma {:induction false} NoTags(s: string)
    requires '<' !in s
    ensures Tags(s) == []
  {
    hide TagAt;
    if s != "" {
      assert s[0] in s;
      NoTagAt(s);
      NoTags(s[1..]);
    }
  }

  lemma OneTag(s: string)
    requires s != "" && '<' !in s[1..]
    ensures Tags(s) == TagAt(s)
  {
    NoTags(s[1..]);
  }

  lemma BoldTagAt()
    ensures TagAt(B.open) == [Opening(B)] && TagAt(B.close) == [Closing(B)]
  {
    assert B.open[1] != B.close[1];
  }

  lemma CodeTagAt()
    ensures TagAt(CODE.open) == [Opening(CODE)] && TagAt(CODE.close) == [Closing(CODE)]
  {
    assert B.open[1] == 'b' && B.close[1] == '/' && B.close[2] == 'b';
    assert CODE.open[1] == 'c' && CODE.close[1] == '/' && CODE.close[2] == 'c';
  }

  /** The tags the first two passes write. */
  lemma SimpleTags(q: TagPair)
    requires q == B || q == CODE
    ensures Tags(q.open) == [Opening(q)] && Tags(q.close) == [Closing(q)]
  {
    hide TagAt, Tags;
    BoldTagAt();
    CodeTagAt();
    OneTag(q.open);
    OneTag(q.close);
  }

  lemma AnchorTagAt(o: string)
    requires A.open <= o
    ensures TagAt(o) == [Opening(A)] && TagAt(A.close) == [Closing(A)]
  {
    assert o[1] == A.open[1] == 'a' && A.close[1] == '/' && A.close[2] == 'a';
    assert B.open[1] == 'b' && B.close[1] == '/' && B.close[2] == 'b';
    assert CODE.open[1] == 'c' && CODE.close[1] == '/' && CODE.close[2] == 'c';
  }

  lemma AnchorTags(href: string)
    ensures Tags(OpenAnchor(href)) == [Opening(A)] && Tags("</a>") == [Closing(A)]
  {
    hide TagAt, Tags, OpenAnchor;
    OpenAnchorShape(href);
    AnchorTagAt(OpenAnchor(href));
    OneTag(OpenAnchor(href));
    OneTag(A.close);
  }

  // ---- what a pass captures ---------------------------------------------------------------------

  /** The texts a global replace captures, in order; `capture` is the one at the head of a match. */
  function Captures(edit: string -> Option<Edit>, capture: string -> Option<string>, s: string): seq<string>
    decreases |s|
  {
    if s == "" then []
    else
      match edit(s)
      case Some(e) =>
        if 0 < e.len <= |s|
        then (if capture(s).Some? then [capture(s).value] else []) + Captures(edit, capture, s[e.len..])
        else Captures(edit, capture, s[1..])
      case None => Captures(edit, capture, s[1..])
  }

  predicate AllNest(texts: seq<string>) {
    forall t :: t in texts ==> Nests(t)
  }

  /** A match is left as it is, or what it captures is wrapped in a pair and nothing else with tags is lost. */
  ghost predicate WrapOk(marks: set<char>, q: TagPair, s: string, e: Edit, text: Option<string>) {
    && 0 < e.len <= |s| && s[0] in marks && s[e.len - 1] in marks && IsTame({}, e.out, false)
    && match text
       case None => e.out == s[..e.len]
       case Some(t) =>
         Tags(e.out) == [Opening(q)] + Tags(t) + [Closing(q)] && Tags(s[..e.len]) == Tags(t)
  }

  ghost predicate Wraps(marks: set<char>, q: TagPair, edit: string -> Option<Edit>, capture: string -> Option<string>) {
    forall s :: IsTame(marks, s, false) && edit(s).Some? ==> WrapOk(marks, q, s, edit(s).value, capture(s))
  }

  /** The pass reads like its input when everything captured nests, and not at all otherwise. */
  ghost predicate PassReads(q: TagPair, texts: seq<string>, before: seq<Tag>, after: seq<Tag>) {
    && (forall stack :: Read(stack, after) == if AllNest(texts) then Read(stack, before) else None)
    && (forall t :: t in after ==> t in before || t.pair == q)
  }

  /** Text in front that the pass leaves alone. */
  lemma PassesOver(q: TagPair, texts: seq<string>, x: seq<Tag>, before: seq<Tag>, after: seq<Tag>)
    requires PassReads(q, texts, before, after)
    ensures PassReads(q, texts, x + before, x + after)
  {
    hide AllNest;
    forall stack ensures Read(stack, x + after) == if AllNest(texts) then Read(stack, x + before) else None {
      ReadAppend(stack, x, before);
      ReadAppend(stack, x, after);
    }
  }

  /** A captured text in front, wrapped by the pass. */
  lemma PassesWrapped(q: TagPair, t: string, texts: seq<string>, before: seq<Tag>, after: seq<Tag>)
    requires PassReads(q, texts, before, after) && Lacks(q, Tags(t))
    ensures PassReads(q, [t] + texts, Tags(t) + before, [Opening(q)] + Tags(t) + [Closing(q)] + after)
  {
    hide Tags;
    var ts := Tags(t);
    var wrapped := [Opening(q)] + ts + [Closing(q)];
    assert AllNest([t] + texts) <==> Nests(t) && AllNest(texts) by {
      assert forall u :: u in [t] + texts <==> u == t || u in texts;
    }
    hide AllNest;
    forall stack
      ensures Read(stack, wrapped + after) == if AllNest([t] + texts) then Read(stack, ts + before) else None
    {
      ReadsWrapped(q, stack, ts);
      ReadAppend(stack, wrapped, after);
      ReadAppend(stack, ts, before);
    }
  }

  // ---- one pass ---------------------------------------------------------------------------------

  lemma {:induction false} SkipsCaptures(marks: set<char>, edit: string -> Option<Edit>,
                                         capture: string -> Option<string>, s: string)
    requires Plain(marks) && StartsAtMarks(marks, edit) && IsTame(marks, s, true)
    ensures Captures(edit, capture, s) == Captures(edit, capture, s[CloseLen(s)..])
  {
    assert edit(s).None?;
    if s[0] != '>' {
      SkipsCaptures(marks, edit, capture, s[1..]);
      assert s[1..][CloseLen(s[1..])..] == s[CloseLen(s)..];
    }
  }

  /** At a tag, nothing is captured until it ends. */
  lemma CapturesNoTag(marks: set<char>, edit: string -> Option<Edit>, capture: string -> Option<string>, s: string)
    requires Plain(marks) && StartsAtMarks(marks, edit) && s != "" && s[0] == '<' && IsTame(marks, s, false)
    ensures Captures(edit, capture, s) == Captures(edit, capture, s[1 + CloseLen(s[1..])..])
  {
    assert edit(s).None?;
    SkipsCaptures(marks, edit, capture, s[1..]);
    assert s[1..][CloseLen(s[1..])..] == s[1 + CloseLen(s[1..])..];
  }

  ghost predicate ReadsAfter(q: TagPair, edit: string -> Option<Edit>, capture: string -> Option<string>, s: string) {
    PassReads(q, Captures(edit, capture, s), Tags(s), Tags(Substitute(edit, s)))
  }

  lemma ReadsAtMatch(marks: set<char>, q: TagPair, edit: string -> Option<Edit>, capture: string -> Option<string>,
                     s: string)
    requires Plain(marks) && IsTame(marks, s, false) && Lacks(q, Tags(s)) && s != ""
    requires edit(s).Some? && WrapOk(marks, q, s, edit(s).value, capture(s))
    requires ReadsAfter(q, edit, capture, s[edit(s).value.len..])
    ensures ReadsAfter(q, edit, capture, s)
  {
    hide IsTame, PassReads, Tags, Lacks, Plain;
    var e := edit(s).value;
    var head, rest := s[..e.len], s[e.len..];
    MatchIsTame(marks, s, e.len);
    MatchTags(marks, s, e.len, e.out, Substitute(edit, rest));
    var texts, before, after := Captures(edit, capture, rest), Tags(rest), Tags(Substitute(edit, rest));
    match capture(s)
    case None =>
      PassesOver(q, texts, Tags(head), before, after);
      assert [] + texts == texts;
    case Some(t) =>
      LacksPart(q, Tags(t), before);
      PassesWrapped(q, t, texts, before, after);
  }

  lemma MatchTags(marks: set<char>, s: string, n: nat, out: string, after: string)
    requires n <= |s| && IsTame(marks, s[..n], false) && IsTame({}, out, false)
    ensures Tags(s) == Tags(s[..n]) + Tags(s[n..]) && Tags(out + after) == Tags(out) + Tags(after)
  {
    hide IsTame, Tags;
    assert s == s[..n] + s[n..];
    TagsAppend(marks, s[..n], s[n..], false);
    TagsAppend({}, out, after, false);
  }

  lemma LacksPart(q: TagPair, a: seq<Tag>, b: seq<Tag>)
    requires Lacks(q, a + b)
    ensures Lacks(q, a) && Lacks(q, b)
  {
    assert forall t :: t in a || t in b ==> t in a + b;
  }

  lemma ReadsAtTag(marks: set<char>, q: TagPair, edit: string -> Option<Edit>, capture: string -> Option<string>,
                   s: string)
    requires Plain(marks) && StartsAtMarks(marks, edit) && IsTame(marks, s, false) && s != "" && s[0] == '<'
    requires ReadsAfter(q, edit, capture, s[1 + CloseLen(s[1..])..])
    ensures ReadsAfter(q, edit, capture, s)
  {
    hide IsTame, PassReads, Tags, Plain, StartsAtMarks, Captures, Substitute, CloseLen;
    CopiesTag(marks, edit, s);
    CapturesNoTag(marks, edit, capture, s);
    var n := 1 + CloseLen(s[1..]);
    var head, rest := s[..n], s[n..];
    assert s == head + rest;
    TagsAppend(marks, head, rest, false);
    TagsAppend(marks, head, Substitute(edit, rest), false);
    PassesOver(q, Captures(edit, capture, rest), Tags(head), Tags(rest), Tags(Substitute(edit, rest)));
  }

  lemma ReadsAtChar(q: TagPair, edit: string -> Option<Edit>, capture: string -> Option<string>, s: string)
    requires s != "" && s[0] != '<' && edit(s).None? && ReadsAfter(q, edit, capture, s[1..])
    ensures ReadsAfter(q, edit, capture, s)
  {
    var out := [s[0]] + Substitute(edit, s[1..]);
    NoTagAt(s);
    NoTagAt(out);
    assert out[1..] == Substitute(edit, s[1..]);
    hide PassReads, TagAt;
    assert Tags(s) == [] + Tags(s[1..]) == Tags(s[1..]);
    assert Tags(out) == [] + Tags(out[1..]) == Tags(out[1..]);
  }

  lemma {:induction false} SubstituteReads(marks: set<char>, q: TagPair, edit: string -> Option<Edit>,
                                           capture: string -> Option<string>, s: string)
    requires Plain(marks) && StartsAtMarks(marks, edit) && Wraps(marks, q, edit, capture)
    requires IsTame(marks, s, false) && Lacks(q, Tags(s))
    ensures ReadsAfter(q, edit, capture, s)
    decreases |s|
  {
    hide ReadsAfter, StartsAtMarks, Tags, Lacks, Plain;
    if s == "" {
      EmptyReads(q, edit, capture);
    } else if edit(s).Some? {
      assert WrapOk(marks, q, s, edit(s).value, capture(s));
      var n := edit(s).value.len;
      MatchIsTame(marks, s, n);
      LacksRest(marks, q, s, n);
      SubstituteReads(marks, q, edit, capture, s[n..]);
      ReadsAtMatch(marks, q, edit, capture, s);
    } else if s[0] == '<' {
      CopiesTag(marks, edit, s);
      LacksRest(marks, q, s, 1 + CloseLen(s[1..]));
      SubstituteReads(marks, q, edit, capture, s[1 + CloseLen(s[1..])..]);
      ReadsAtTag(marks, q, edit, capture, s);
    } else {
      LacksTail(q, s);
      SubstituteReads(marks, q, edit, capture, s[1..]);
      ReadsAtChar(q, edit, capture, s);
    }
  }

  lemma LacksTail(q: TagPair, s: string)
    requires s != "" && Lacks(q, Tags(s))
    ensures Lacks(q, Tags(s[1..]))
  {
    hide TagAt;
    LacksPart(q, TagAt(s), Tags(s[1..]));
  }

  lemma LacksRest(marks: set<char>, q: TagPair, s: string, n: nat)
    requires n <= |s| && IsTame(marks, s[..n], false) && Lacks(q, Tags(s))
    ensures Lacks(q, Tags(s[n..]))
  {
    hide IsTame, Tags, Lacks;
    assert s == s[..n] + s[n..];
    TagsAppend(marks, s[..n], s[n..], false);
    LacksPart(q, Tags(s[..n]), Tags(s[n..]));
  }

  lemma EmptyReads(q: TagPair, edit: string -> Option<Edit>, capture: string -> Option<string>)
    ensures ReadsAfter(q, edit, capture, "")
  {
  }

  // ---- the three passes -------------------------------------------------------------------------

  /** A pair around a captured text, instead of the marks around it. */
  lemma WrapTags(q: TagPair, open: string, close: string, u: string, v: string, inner: string)
    requires IsTame({}, open, false) && IsTame({}, inner, false) && IsTame({}, u, false) && '<' !in u && '<' !in v
    requires Tags(open) == [Opening(q)] && Tags(close) == [Closing(q)]
    ensures Tags(open + inner + close) == [Opening(q)] + Tags(inner) + [Closing(q)]
    ensures Tags(u + inner + v) == Tags(inner)
  {
    NoTags(u);
    NoTags(v);
    hide IsTame, Tags;
    TameAppendIs(open, inner);
    TagsAppend({}, open + inner, close, false);
    TagsAppend({}, open, inner, false);
    TameAppendIs(u, inner);
    TagsAppend({}, u + inner, v, false);
    TagsAppend({}, u, inner, false);
  }

  lemma MarkedWraps(q: TagPair, s: string, u: string, inner: string)
    requires (q == B || q == CODE) && IsTame(MARKS, s, false)
    requires u != "" && (forall c :: c in u ==> c in MARKS) && u + inner + u <= s
    ensures WrapOk(MARKS, q, s, Edit(|u + inner + u|, q.open + inner + q.close), Some(inner))
  {
    hide IsTame, Tags, Excess;
    WrappedIsOk(B, q, s, u, inner);
    CapturedIsTame(s, u, inner);
    SimpleTagsAreTame(q);
    MarksAreTame(u);
    TameWeaker(MARKS, {}, q.open + inner + q.close, false);
    TameWeaker(MARKS, {}, inner, false);
    TameWeaker(MARKS, {}, u, false);
    TameWeaker(MARKS, {}, q.open, false);
    SimpleTags(q);
    assert '<' !in u;
    WrapTags(q, q.open, q.close, u, u, inner);
    assert s[..|u + inner + u|] == u + inner + u;
  }

  lemma BoldWraps()
    ensures Wraps(MARKS, B, BoldEdit, Bold)
  {
    hide IsTame, Tags, WrapOk;
    forall s: string | IsTame(MARKS, s, false) && BoldEdit(s).Some?
      ensures WrapOk(MARKS, B, s, BoldEdit(s).value, Bold(s))
    {
      MarkedWraps(B, s, "**", Bold(s).value);
    }
  }

  lemma CodeWraps()
    ensures Wraps(MARKS, CODE, CodeEdit, Code)
  {
    hide IsTame, Tags, WrapOk;
    forall s: string | IsTame(MARKS, s, false) && CodeEdit(s).Some?
      ensures WrapOk(MARKS, CODE, s, CodeEdit(s).value, Code(s))
    {
      MarkedWraps(CODE, s, "`", Code(s).value);
    }
  }

  /** The label of a link at the head of `s`, if its URL is safe. */
  function SafeLabel(s: string): Option<string> {
    match Markdown.Link(s)
    case None => None
    case Some(l) => if IsSafeUrl(Href(l.url)) then Some(l.text) else None
  }

  lemma LinkWraps()
    ensures Wraps(MARKS, A, LinkEdit, SafeLabel)
  {
    hide IsTame, Tags, WrapOk, IsSafeUrl, Href;
    forall s: string | IsTame(MARKS, s, false) && LinkEdit(s).Some?
      ensures WrapOk(MARKS, A, s, LinkEdit(s).value, SafeLabel(s))
    {
      LinkWrapOk(s, Markdown.Link(s).value);
    }
  }

  lemma LinkWrapOk(s: string, l: LinkText)
    requires IsTame(MARKS, s, false) && Linked(l) <= s
    ensures var safe := IsSafeUrl(Href(l.url));
            WrapOk(MARKS, A, s, Edit(|Linked(l)|, if safe then Anchor(Href(l.url), l.text) else Linked(l)),
                   if safe then Some(l.text) else None)
  {
    hide IsTame, Tags, Excess, IsSafeUrl, Href, Anchor, Linked;
    LinkEditIsOk(B, s, l);
    assert s[..|Linked(l)|] == Linked(l);
    if IsSafeUrl(Href(l.url)) {
      LinkParts(s, l);
      SafeLinkUrl(l.url);
      SafeAnchorTags(l, Href(l.url));
    }
  }

  lemma SafeAnchorTags(l: LinkText, href: string)
    requires IsTame(MARKS, l.text, false) && '<' !in l.url
    ensures Tags(Anchor(href, l.text)) == [Opening(A)] + Tags(l.text) + [Closing(A)]
    ensures Tags(Linked(l)) == Tags(l.text)
  {
    hide IsTame, Tags, OpenAnchor;
    TameWeaker(MARKS, {}, l.text, false);
    OpenAnchorShape(href);
    AnchorTags(href);
    MarksAreTame("[");
    TameWeaker(MARKS, {}, "[", false);
    var tail := "](" + l.url + ")";
    WrapTags(A, OpenAnchor(href), "</a>", "[", tail, l.text);
    assert Linked(l) == "[" + l.text + tail;
  }

  /** Texts captured where there are no tags have none, so they nest. */
  lemma {:induction false} PlainCapturesNest(s: string)
    requires '<' !in s
    ensures AllNest(Captures(BoldEdit, Bold, s))
    decreases |s|
  {
    hide Tags, Bold, BoldEdit;
    if s != "" {
      if Bold(s).Some? {
        var inner := Bold(s).value;
        assert Bolded(inner) <= s;
        BoldIsInside(s, inner);
        NoTags(inner);
        PlainCapturesNest(s[|Bolded(inner)|..]);
        BoldCaptures(s);
      } else {
        PlainCapturesNest(s[1..]);
        BoldCaptures(s);
      }
    }
  }

  lemma BoldIsInside(s: string, inner: string)
    requires Bolded(inner) <= s && '<' !in s
    ensures '<' !in inner && 0 < |Bolded(inner)| <= |s|
  {
    assert forall i :: 0 <= i < |inner| ==> inner[i] == Bolded(inner)[2 + i] == s[2 + i];
  }

  lemma BoldCaptures(s: string)
    requires s != ""
    ensures Captures(BoldEdit, Bold, s) ==
            if Bold(s).Some? then [Bold(s).value] + Captures(BoldEdit, Bold, s[|Bolded(Bold(s).value)|..])
            else Captures(BoldEdit, Bold, s[1..])
  {
  }

  lemma StartsAll(p: TagPair)
    requires IsOurs(p)
    ensures StartsAtMarks(MARKS, BoldEdit) && StartsAtMarks(MARKS, CodeEdit) && StartsAtMarks(MARKS, LinkEdit)
    ensures KeepsExcess(MARKS, p, MARKS, BoldEdit) && KeepsExcess(MARKS, p, MARKS, CodeEdit)
  {
    hide StartsAtMarks, KeepsExcess;
    BoldKeepsExcess(p);
    CodeKeepsExcess(p);
    LinkKeepsExcess(p);
  }

  /** The markdown after its bold pass, and after its code pass. */
  function AfterBold(md: string): string {
    Substitute(BoldEdit, EscapeHtml(md))
  }

  function AfterCode(md: string): string {
    Substitute(CodeEdit, AfterBold(md))
  }

  lemma BoldPass(md: string)
    ensures IsTame(MARKS, AfterBold(md), false) && Nests(AfterBold(md))
    ensures forall t :: t in Tags(AfterBold(md)) ==> t.pair == B
  {
    var s := EscapeHtml(md);
    EscapedChars(md);
    hide EscapeHtml, Substitute, IsTame, Tags, StartsAtMarks, KeepsExcess, Wraps, AllNest, Captures;
    NoBracketsIsTame(s);
    NoTags(s);
    MarksArePlain();
    OursArePairs(B);
    StartsAll(B);
    BoldWraps();
    SubstituteKeepsExcess(MARKS, B, MARKS, BoldEdit, s);
    SubstituteReads(MARKS, B, BoldEdit, Bold, s);
    PlainCapturesNest(s);
  }

  lemma CodePass(md: string)
    ensures IsTame(MARKS, AfterCode(md), false)
    ensures Nests(AfterCode(md)) <==> AllNest(Captures(CodeEdit, Code, AfterBold(md)))
    ensures forall t :: t in Tags(AfterCode(md)) ==> t.pair == B || t.pair == CODE
  {
    var s := AfterBold(md);
    BoldPass(md);
    hide AfterBold, Substitute, IsTame, Tags, StartsAtMarks, KeepsExcess, Wraps, AllNest, Captures;
    MarksArePlain();
    OursArePairs(B);
    StartsAll(B);
    CodeWraps();
    assert B != CODE;
    SubstituteKeepsExcess(MARKS, B, MARKS, CodeEdit, s);
    SubstituteReads(MARKS, CODE, CodeEdit, Code, s);
  }

  /**
   * Exactly when the tags of converted markdown nest: when every text captured by the code pass nests on its
   * own, and every label of a safe link captured by the link pass does. Otherwise tags cross.
   */
  lemma NestsExactlyWhenCapturesNest(md: string)
    ensures Nests(MdInlineHtml(md)) <==>
            && AllNest(Captures(CodeEdit, Code, AfterBold(md)))
            && AllNest(Captures(LinkEdit, SafeLabel, AfterCode(md)))
  {
    var s := AfterCode(md);
    CodePass(md);
    assert MdInlineHtml(md) == Substitute(LinkEdit, s);
    hide AfterCode, AfterBold, MdInlineHtml, Substitute, IsTame, Tags, StartsAtMarks, KeepsExcess, Wraps, AllNest;
    hide Captures;
    MarksArePlain();
    StartsAll(A);
    LinkWraps();
    assert B != A && CODE != A;
    SubstituteReads(MARKS, A, LinkEdit, SafeLabel, s);
  }

  lemma TagsPast(x: string, s: string)
    requires '<' !in x && '>' !in x
    ensures Tags(x + s) == Tags(s)
  {
    hide IsTame, Tags;
    NoBracketsIsTame(x);
    TagsAppend(MARKS, x, s, false);
    NoTags(x);
  }

  lemma TagThen(q: TagPair, s: string)
    requires q == B || q == CODE
    ensures Tags(q.open + s) == [Opening(q)] + Tags(s) && Tags(q.close + s) == [Closing(q)] + Tags(s)
  {
    hide IsTame, Tags;
    SimpleTagsAreTame(q);
    SimpleTags(q);
    TagsAppend(MARKS, q.open, s, false);
    TagsAppend(MARKS, q.close, s, false);
  }

  lemma CrossingParts()
    ensures "<b>a <code>b</b> c</code>" == "<b>" + ("a " + ("<code>" + ("b" + ("</b>" + (" c" + "</code>")))))
  {
  }

  lemma CrossedRead()
    ensures Read([], [Opening(B)] + ([Opening(CODE)] + ([Closing(B)] + [Closing(CODE)]))) == None
  {
    assert B.open[1] != CODE.open[1];
    var ts := [Opening(B)] + ([Opening(CODE)] + ([Closing(B)] + [Closing(CODE)]));
    assert ts[0] == Opening(B) && ts[1..][0] == Opening(CODE) && ts[1..][1..][0] == Closing(B);
    assert [B] + [] == [B];
    assert ([CODE] + [B])[0] == CODE;
    assert Read([CODE] + [B], ts[1..][1..]) == None;
    assert Read([B], ts[1..]) == None;
  }

  /** The promise fails: a bold text that ends inside the code that began in it crosses tags. */
  lemma CrossingTagsDoNotNest()
    ensures !Nests(MdInlineHtml("**a `b** c`"))
  {
    hide MdInlineHtml, Tags, Read;
    TagsMayCross();
    CrossingParts();
    TagThen(B, "a " + ("<code>" + ("b" + ("</b>" + (" c" + "</code>")))));
    TagsPast("a ", "<code>" + ("b" + ("</b>" + (" c" + "</code>"))));
    TagThen(CODE, "b" + ("</b>" + (" c" + "</code>")));
    TagsPast("b", "</b>" + (" c" + "</code>"));
    TagThen(B, " c" + "</code>");
    TagsPast(" c", "</code>");
    SimpleTags(CODE);
    CrossedRead();
  }
}
