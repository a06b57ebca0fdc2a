/** Inline markdown to HTML (mdInlineHtml and linkAnchor, src/core/render.ts). */
module InlineHtml {
  import opened Types
  import opened Text
  import opened Markdown
  import opened Html

  // ---- the passes -------------------------------------------------------------------------------

  /** A match of `len` characters and what replaces it. */
  datatype Edit = Edit(len: nat, out: string)

  /** A global replace: `edit` looks at the head of what is left. */
  function Substitute(edit: string -> Option<Edit>, s: string): string {
    if s == "" then ""
    else
      match edit(s)
      case Some(e) => if 0 < e.len <= |s| then e.out + Substitute(edit, s[e.len..])
                      else [s[0]] + Substitute(edit, s[1..])
      case None => [s[0]] + Substitute(edit, s[1..])
  }

  function BoldEdit(s: string): Option<Edit> {
    match Bold(s)
    case None => None
    case Some(inner) => Some(Edit(|Bolded(inner)|, "<b>" + inner + "</b>"))
  }

  function CodeEdit(s: string): Option<Edit> {
    match Code(s)
    case None => None
    case Some(inner) => Some(Edit(|Coded(inner)|, "<code>" + inner + "</code>"))
  }

  /** escapeAttrUrl. */
  function EscapeAttrUrl(url: string): string {
    ReplaceAll(ReplaceAll(url, "'", "%27"), "\"", "%22")
  }

  /** `^https?:\/\/[^"'<>\s]+$` */
  predicate IsSafeUrl(url: string) {
    && 0 < SchemeLen(url) < |url|
    && forall c :: c in url[SchemeLen(url)..] ==> c !in {'"', '\'', '<', '>'} && !IsSpace(c)
  }

  function Anchor(href: string, text: string): string {
    OpenAnchor(href) + text + "</a>"
  }

  function OpenAnchor(href: string): string {
    "<a href=\"" + EscapeHtml(href) + "\">"
  }

  /** The URL a link in escaped markdown points to. */
  function Href(url: string): string {
    EscapeAttrUrl(UnescapeHtml(url))
  }

  function LinkEdit(s: string): Option<Edit> {
    match Markdown.Link(s)
    case None => None
    case Some(l) => Some(Edit(|Linked(l)|, if IsSafeUrl(Href(l.url)) then Anchor(Href(l.url), l.text) else Linked(l)))
  }

  /** mdInlineHtml. */
  function MdInlineHtml(md: string): string {
    Substitute(LinkEdit, Substitute(CodeEdit, Substitute(BoldEdit, EscapeHtml(md))))
  }

  /** linkAnchor. */
  function LinkAnchor(text: string, url: string): string {
    var href := EscapeAttrUrl(url);
    if IsSafeUrl(href) then Anchor(href, EscapeHtml(text)) else EscapeHtml(text) + ": " + EscapeHtml(url)
  }

  // ---- counting tags ----------------------------------------------------------------------------

  function Count(t: string, s: string): nat {
    if s == "" then 0 else (if t <= s then 1 else 0) + Count(t, s[1..])
  }

  /** An opening tag, up to its first attribute value, and its closing tag. */
  datatype TagPair = TagPair(open: string, close: string)

  const B := TagPair("<b>", "</b>")
  const CODE := TagPair("<code>", "</code>")
  const A := TagPair("<a href=\"", "</a>")

  predicate IsTag(t: string) {
    |t| > 1 && t[0] == '<' && forall i :: 0 <= i < |t| - 1 ==> t[i] != '>'
  }

  predicate IsPair(p: TagPair) {
    IsTag(p.open) && IsTag(p.close)
  }

  function Excess(p: TagPair, s: string): int {
    Count(p.open, s) - Count(p.close, s)
  }

  /** What the patterns look at; no tag the first two passes write contains any of it. */
  const MARKS := {'*', '`', '[', ']', '(', ')', '\n'}

  /** Angle brackets alternate, and nothing of `marks` stands between `<` and `>`. */
  predicate IsTame(marks: set<char>, s: string, inTag: bool) {
    if s == "" then !inTag
    else if inTag then s[0] != '<' && s[0] !in marks && IsTame(marks, s[1..], s[0] != '>')
    else s[0] != '>' && IsTame(marks, s[1..], s[0] == '<')
  }

  lemma {:induction false} TameAppend(marks: set<char>, a: string, b: string, inTag: bool)
    requires IsTame(marks, a, inTag)
    ensures IsTame(marks, a + b, inTag) <==> IsTame(marks, b, false)
  {
    if a == "" {
      assert a + b == b;
    } else {
      assert (a + b)[1..] == a[1..] + b;
      TameAppend(marks, a[1..], b, if inTag then a[0] != '>' else a[0] == '<');
    }
  }

  /** A mark is never inside a tag, so a tame string can be cut at one. */
  lemma {:induction false} TameCut(marks: set<char>, a: string, b: string, inTag: bool)
    requires b != "" && b[0] in marks && b[0] != '<' && IsTame(marks, a + b, inTag)
    ensures IsTame(marks, a, inTag) && IsTame(marks, b, false) && IsTame(marks, b[1..], false)
  {
    if a == "" {
      assert a + b == b;
    } else {
      assert (a + b)[1..] == a[1..] + b;
      TameCut(marks, a[1..], b, if inTag then a[0] != '>' else a[0] == '<');
    }
  }

  lemma {:induction false} TameCloses(marks: set<char>, a: string)
    requires IsTame(marks, a, true)
    ensures '>' in a
  {
    if a[0] != '>' {
      TameCloses(marks, a[1..]);
    }
  }

  /** No tag straddles the end of a tame string. */
  lemma TagFits(marks: set<char>, t: string, a: string, b: string, inTag: bool)
    requires IsTag(t) && IsTame(marks, a, inTag) && a != ""
    ensures t <= a + b <==> t <= a
  {
    if a[0] == '<' {
      TameCloses(marks, a[1..]);
      var k :| 1 <= k < |a| && a[k] == '>';
      if t <= a + b {
        assert |t| <= |a| by {
          assert k < |t| ==> t[k] == '>';
        }
        assert (a + b)[..|t|] == a[..|t|];
      }
    } else {
      assert (a + b)[0] == a[0];
    }
  }

  lemma {:induction false} CountAppend(marks: set<char>, t: string, a: string, b: string, inTag: bool)
    requires IsTag(t) && IsTame(marks, a, inTag)
    ensures Count(t, a + b) == Count(t, a) + Count(t, b)
  {
    hide IsTag;
    if a == "" {
      assert a + b == b;
    } else {
      TagFits(marks, t, a, b, inTag);
      assert (a + b)[1..] == a[1..] + b;
      CountAppend(marks, t, a[1..], b, if inTag then a[0] != '>' else a[0] == '<');
    }
  }

  lemma ExcessAppend(marks: set<char>, p: TagPair, a: string, b: string)
    requires IsPair(p) && IsTame(marks, a, false)
    ensures Excess(p, a + b) == Excess(p, a) + Excess(p, b)
  {
    CountAppend(marks, p.open, a, b, false);
    CountAppend(marks, p.close, a, b, false);
  }

  // ---- a pass keeps the excess ------------------------------------------------------------------

  /** Marks are not brackets. */
  predicate Plain(marks: set<char>) {
    '<' !in marks && '>' !in marks
  }

  /** What a pass may do at the head of a tame string. */
  ghost predicate EditOk(marks: set<char>, p: TagPair, after: set<char>, s: string, e: Edit) {
    && 0 < e.len <= |s| && s[0] in marks && s[e.len - 1] in marks
    && IsTame(after, e.out, false)
    && Excess(p, e.out) == Excess(p, s[..e.len])
  }

  ghost predicate KeepsExcess(marks: set<char>, p: TagPair, after: set<char>, edit: string -> Option<Edit>) {
    forall s :: IsTame(marks, s, false) && edit(s).Some? ==> EditOk(marks, p, after, s, edit(s).value)
  }

  ghost predicate StartsAtMarks(marks: set<char>, edit: string -> Option<Edit>) {
    forall s :: edit(s).Some? ==> s != "" && s[0] in marks
  }

  /** Length of the rest of a tag. */
  function CloseLen(s: string): (n: nat)
    ensures n <= |s|
  {
    if s == "" then 0 else if s[0] == '>' then 1 else 1 + CloseLen(s[1..])
  }

  /** A pass does not look inside a tag. */
  lemma {:induction false} SkipsTag(marks: set<char>, edit: string -> Option<Edit>, s: string)
    requires Plain(marks)
    requires StartsAtMarks(marks, edit) && IsTame(marks, s, true)
    ensures var n := CloseLen(s);
            && IsTame(marks, s[..n], true) && IsTame(marks, s[n..], false)
            && Substitute(edit, s) == s[..n] + Substitute(edit, s[n..])
  {
    assert edit(s).None?;
    if s[0] == '>' {
      assert s[..1] == [s[0]] && s[..1][1..] == "";
    } else {
      SkipsTag(marks, edit, s[1..]);
      var n := CloseLen(s);
      TagTail(marks, s, n);
      CopyOne(edit, s, s[1..][..n - 1], Substitute(edit, s[n..]));
      hide IsTame, StartsAtMarks;
    }
  }

  lemma TagTail(marks: set<char>, s: string, n: nat)
    requires s != "" && s[0] != '<' && s[0] != '>' && s[0] !in marks && 1 <= n <= |s|
    requires IsTame(marks, s[1..][..n - 1], true)
    ensures IsTame(marks, s[..n], true) && s[1..][n - 1..] == s[n..]
    ensures [s[0]] + s[1..][..n - 1] == s[..n]
  {
    assert s[..n][1..] == s[1..][..n - 1];
  }

  lemma {:induction false} TameWeaker(marks: set<char>, less: set<char>, s: string, inTag: bool)
    requires less <= marks && IsTame(marks, s, inTag)
    ensures IsTame(less, s, inTag)
  {
    if s != "" {
      TameWeaker(marks, less, s[1..], if inTag then s[0] != '>' else s[0] == '<');
    }
  }

  /** A match starts and ends at marks, so what surrounds it stays tame. */
  lemma MatchIsTame(marks: set<char>, s: string, n: nat)
    requires Plain(marks)
    requires 0 < n <= |s| && s[n - 1] in marks && IsTame(marks, s, false)
    ensures IsTame(marks, s[..n], false) && IsTame(marks, s[n..], false)
  {
    var a, b := s[..n - 1], s[n - 1..];
    assert s == a + b && b[1..] == s[n..];
    TameCut(marks, a, b, false);
    assert s[..n] == a + [s[n - 1]];
    assert [s[n - 1]][1..] == "";
    TameAppend(marks, a, [s[n - 1]], false);
  }

  lemma TagHead(marks: set<char>, s: string, n: nat)
    requires s != "" && s[0] == '<' && 1 <= n <= |s|
    requires IsTame(marks, s[1..][..n - 1], true)
    ensures IsTame(marks, s[..n], false) && s[1..][n - 1..] == s[n..]
    ensures [s[0]] + s[1..][..n - 1] == s[..n]
  {
    assert s[..n][1..] == s[1..][..n - 1];
  }

  /** At a tag, a pass copies it. */
  lemma CopiesTag(marks: set<char>, edit: string -> Option<Edit>, s: string)
    requires Plain(marks)
    requires StartsAtMarks(marks, edit) && s != "" && s[0] == '<' && IsTame(marks, s, false)
    ensures var n := 1 + CloseLen(s[1..]);
            && n <= |s| && IsTame(marks, s[..n], false) && IsTame(marks, s[n..], false)
            && Substitute(edit, s) == s[..n] + Substitute(edit, s[n..])
  {
    SkipsTag(marks, edit, s[1..]);
    var n := 1 + CloseLen(s[1..]);
    TagHead(marks, s, n);
    assert edit(s).None?;
    hide IsTame, CloseLen, StartsAtMarks;
    CopyOne(edit, s, s[1..][..n - 1], Substitute(edit, s[n..]));
  }

  lemma CopyOne(edit: string -> Option<Edit>, s: string, x: string, rest: string)
    requires s != "" && edit(s).None? && Substitute(edit, s[1..]) == x + rest
    ensures Substitute(edit, s) == ([s[0]] + x) + rest
  {
    assert [s[0]] + (x + rest) == ([s[0]] + x) + rest;
  }

  ghost predicate PassKeeps(p: TagPair, after: set<char>, edit: string -> Option<Edit>, s: string) {
    IsTame(after, Substitute(edit, s), false) && Excess(p, Substitute(edit, s)) == Excess(p, s)
  }

  lemma KeepsAtMatch(marks: set<char>, p: TagPair, after: set<char>, edit: string -> Option<Edit>, s: string)
    requires Plain(marks)
    requires IsPair(p) && after <= marks && IsTame(marks, s, false)
    requires edit(s).Some? && EditOk(marks, p, after, s, edit(s).value)
    requires PassKeeps(p, after, edit, s[edit(s).value.len..])
    ensures PassKeeps(p, after, edit, s)
  {
    var e := edit(s).value;
    MatchIsTame(marks, s, e.len);
    hide IsTame, Excess, IsPair;
    KeepsAcross(marks, p, after, s, e.len, e.out, Substitute(edit, s[e.len..]));
  }

  lemma KeepsAtTag(marks: set<char>, p: TagPair, after: set<char>, edit: string -> Option<Edit>, s: string)
    requires Plain(marks)
    requires IsPair(p) && after <= marks && IsTame(marks, s, false)
    requires StartsAtMarks(marks, edit) && s != "" && s[0] == '<'
    requires PassKeeps(p, after, edit, s[1 + CloseLen(s[1..])..])
    ensures PassKeeps(p, after, edit, s)
  {
    hide IsTame, Excess, IsPair, StartsAtMarks;
    CopiesTag(marks, edit, s);
    var n := 1 + CloseLen(s[1..]);
    TameWeaker(marks, after, s[..n], false);
    KeepsAcross(marks, p, after, s, n, s[..n], Substitute(edit, s[n..]));
  }

  lemma KeepsAtChar(marks: set<char>, p: TagPair, after: set<char>, edit: string -> Option<Edit>, s: string)
    requires Plain(marks)
    requires IsPair(p) && IsTame(marks, s, false) && s != "" && s[0] != '<' && edit(s).None?
    requires PassKeeps(p, after, edit, s[1..])
    ensures PassKeeps(p, after, edit, s)
  {
    OneChar(p, after, s[0], s[1..], Substitute(edit, s[1..]));
    assert [s[0]] + s[1..] == s;
  }

  lemma NothingToKeep(p: TagPair, after: set<char>, edit: string -> Option<Edit>)
    ensures PassKeeps(p, after, edit, "")
  {
  }

  lemma {:induction false} SubstituteKeepsExcess(marks: set<char>, p: TagPair, after: set<char>,
                                                 edit: string -> Option<Edit>, s: string)
    requires Plain(marks)
    requires IsPair(p) && after <= marks && StartsAtMarks(marks, edit) && KeepsExcess(marks, p, after, edit)
    requires IsTame(marks, s, false)
    ensures PassKeeps(p, after, edit, s)
    decreases |s|
  {
    hide PassKeeps, IsPair, StartsAtMarks;
    if s == "" {
      NothingToKeep(p, after, edit);
    } else if edit(s).Some? {
      assert EditOk(marks, p, after, s, edit(s).value);
      MatchIsTame(marks, s, edit(s).value.len);
      SubstituteKeepsExcess(marks, p, after, edit, s[edit(s).value.len..]);
      KeepsAtMatch(marks, p, after, edit, s);
    } else if s[0] == '<' {
      CopiesTag(marks, edit, s);
      SubstituteKeepsExcess(marks, p, after, edit, s[1 + CloseLen(s[1..])..]);
      KeepsAtTag(marks, p, after, edit, s);
    } else {
      SubstituteKeepsExcess(marks, p, after, edit, s[1..]);
      KeepsAtChar(marks, p, after, edit, s);
    }
  }

  /** The head and the rest of a pass, put together. */
  lemma KeepsAcross(marks: set<char>, p: TagPair, after: set<char>, s: string, n: nat, out: string, rest: string)
    requires IsPair(p) && after <= marks && n <= |s|
    requires IsTame(marks, s[..n], false) && IsTame(after, out, false) && IsTame(after, rest, false)
    requires Excess(p, out) == Excess(p, s[..n]) && Excess(p, rest) == Excess(p, s[n..])
    ensures IsTame(after, out + rest, false) && Excess(p, out + rest) == Excess(p, s)
  {
    assert s == s[..n] + s[n..];
    ExcessAppend(marks, p, s[..n], s[n..]);
    ExcessAppend(after, p, out, rest);
    TameAppend(after, out, rest, false);
  }

  lemma OneChar(p: TagPair, after: set<char>, c: char, a: string, b: string)
    requires IsPair(p) && c != '<' && c != '>' && Excess(p, a) == Excess(p, b) && IsTame(after, b, false)
    ensures IsTame(after, [c] + b, false) && Excess(p, [c] + b) == Excess(p, [c] + a)
  {
    assert ([c] + a)[1..] == a && ([c] + b)[1..] == b;
  }

  // ---- the three passes -------------------------------------------------------------------------

  lemma {:induction false} CountNone(t: string, s: string)
    requires IsTag(t) && '<' !in s
    ensures Count(t, s) == 0
  {
    if s != "" {
      assert s[0] in s;
      CountNone(t, s[1..]);
    }
  }

  lemma CountOne(t: string, s: string)
    requires IsTag(t) && s != "" && '<' !in s[1..]
    ensures Count(t, s) == if t <= s then 1 else 0
  {
    CountNone(t, s[1..]);
  }

  predicate IsOurs(p: TagPair) {
    p == B || p == CODE || p == A
  }

  lemma OursArePairs(p: TagPair)
    requires IsOurs(p)
    ensures IsPair(p)
  {
  }

  /** A tag on its own. */
  lemma {:induction false} InTagTame(marks: set<char>, s: string)
    requires s != "" && s[|s| - 1] == '>' && '>' !in s[..|s| - 1] && '<' !in s
    requires forall c :: c in s ==> c !in marks
    ensures IsTame(marks, s, true)
  {
    assert s[0] in s;
    if |s| == 1 {
      assert s[1..] == "";
    } else {
      assert s[0] == s[..|s| - 1][0];
      assert s[1..][..|s| - 2] == s[..|s| - 1][1..];
      InTagTame(marks, s[1..]);
    }
  }

  lemma TagTame(marks: set<char>, t: string)
    requires |t| > 1 && t[0] == '<' && t[|t| - 1] == '>' && '>' !in t[1..|t| - 1] && '<' !in t[1..]
    requires forall c :: c in t[1..] ==> c !in marks
    ensures IsTame(marks, t, false)
  {
    assert t[1..][..|t| - 2] == t[1..|t| - 1];
    InTagTame(marks, t[1..]);
  }

  /** Two tags that cancel out around a text, for what the pattern had around it. */
  lemma WrapKeepsExcess(p: TagPair, after: set<char>, x: string, y: string, u: string, v: string, inner: string)
    requires IsPair(p)
    requires IsTame(after, x, false) && IsTame(after, y, false) && IsTame(after, inner, false)
             && IsTame(after, u, false)
    requires Excess(p, x) + Excess(p, y) == 0 && '<' !in u && '<' !in v
    ensures IsTame(after, x + inner + y, false)
    ensures Excess(p, x + inner + y) == Excess(p, u + inner + v)
  {
    TameAppend(after, x, inner, false);
    TameAppend(after, x + inner, y, false);
    TameAppend(after, u, inner, false);
    ExcessAppend(after, p, x, inner);
    ExcessAppend(after, p, x + inner, y);
    ExcessAppend(after, p, u, inner);
    ExcessAppend(after, p, u + inner, v);
    CountNone(p.open, u);
    CountNone(p.close, u);
    CountNone(p.open, v);
    CountNone(p.close, v);
  }

  predicate IsName(n: string) {
    n != "" && forall i :: 0 <= i < |n| ==> n[i] == '/' || 'a' <= n[i] <= 'z'
  }

  lemma NamedTagIsTame(n: string)
    requires IsName(n)
    ensures IsTame(MARKS, "<" + n + ">", false)
  {
    var t := "<" + n + ">";
    assert t[1..] == n + ">" && t[1..|t| - 1] == n;
    assert forall c :: c in n ==> c == '/' || 'a' <= c <= 'z';
    TagTame(MARKS, t);
  }

  lemma SimpleTagsAreTame(q: TagPair)
    requires q == B || q == CODE
    ensures IsTame(MARKS, q.open, false) && IsTame(MARKS, q.close, false)
  {
    hide IsTame;
    var n := if q == B then "b" else "code";
    NamedTagIsTame(n);
    NamedTagIsTame("/" + n);
    assert q.open == "<" + n + ">" && q.close == "<" + ("/" + n) + ">";
  }

  /** A pair counts its own tags and nobody else's. */
  lemma TagExcess(p: TagPair, t: string)
    requires IsOurs(p) && t != "" && '<' !in t[1..]
    ensures Excess(p, t) == (if p.open <= t then 1 else 0) - (if p.close <= t then 1 else 0)
  {
    OursArePairs(p);
    CountOne(p.open, t);
    CountOne(p.close, t);
  }

  /** No tag of another pair begins like a bold or code tag, and no closing tag like an opening one. */
  lemma TagsDiffer(p: TagPair, q: TagPair)
    requires IsOurs(p) && (q == B || q == CODE)
    ensures !(p.close <= q.open) && !(p.open <= q.close)
    ensures p != q ==> !(p.open <= q.open) && !(p.close <= q.close)
  {
    assert p.open[1] != '/' && q.open[1] != '/' && p.close[1] == '/' && q.close[1] == '/';
    if p != q {
      assert p.open[1] != q.open[1] && p.close[2] != q.close[2];
    }
  }

  lemma SimpleTagsCancel(p: TagPair, q: TagPair)
    requires IsOurs(p) && (q == B || q == CODE)
    ensures Excess(p, q.open) + Excess(p, q.close) == 0
  {
    hide Excess;
    TagExcess(p, q.open);
    TagExcess(p, q.close);
    TagsDiffer(p, q);
  }

  /** Text between a mark in front and a mark behind is tame, and so is what follows. */
  lemma InnerIsTame(marks: set<char>, a: string, mark: char, inner: string, rest: string)
    requires Plain(marks) && mark in marks && rest != "" && rest[0] in marks
    requires IsTame(marks, a + ([mark] + (inner + rest)), false)
    ensures IsTame(marks, inner, false) && IsTame(marks, rest, false)
  {
    hide IsTame;
    var b := [mark] + (inner + rest);
    assert b[1..] == inner + rest;
    TameCut(marks, a, b, false);
    TameCut(marks, inner, rest, false);
  }

  lemma {:induction false} MarksAreTame(u: string)
    requires forall c :: c in u ==> c in MARKS
    ensures IsTame(MARKS, u, false)
  {
    if u != "" {
      assert u[0] in u;
      MarksAreTame(u[1..]);
    }
  }

  lemma MarksArePlain()
    ensures Plain(MARKS)
  {
  }

  /** What bold or code captures between marks is tame. */
  lemma CapturedIsTame(s: string, u: string, inner: string)
    requires IsTame(MARKS, s, false) && u != "" && (forall c :: c in u ==> c in MARKS) && u + inner + u <= s
    ensures IsTame(MARKS, inner, false)
  {
    hide IsTame;
    MarksArePlain();
    var m := |u|;
    assert u[m - 1] in u && u[0] in u;
    var rest := u + s[|u + inner + u|..];
    assert s == u[..m - 1] + ([u[m - 1]] + (inner + rest)) by {
      assert s == (u + inner + u) + s[|u + inner + u|..];
      assert u == u[..m - 1] + [u[m - 1]];
    }
    InnerIsTame(MARKS, u[..m - 1], u[m - 1], inner, rest);
  }

  /** What bold or code makes of a match, with the same mark on both sides of the pattern. */
  lemma WrappedIsOk(p: TagPair, q: TagPair, s: string, u: string, inner: string)
    requires IsOurs(p) && (q == B || q == CODE) && IsTame(MARKS, s, false)
    requires u != "" && (forall c :: c in u ==> c in MARKS) && u + inner + u <= s
    ensures EditOk(MARKS, p, MARKS, s, Edit(|u + inner + u|, q.open + inner + q.close))
  {
    hide Excess, IsTame;
    var m := |u|;
    assert u[m - 1] in u && u[0] in u;
    OursArePairs(p);
    CapturedIsTame(s, u, inner);
    SimpleTagsAreTame(q);
    SimpleTagsCancel(p, q);
    MarksAreTame(u);
    assert '<' !in u;
    WrapKeepsExcess(p, MARKS, q.open, q.close, u, u, inner);
    assert s[..|u + inner + u|] == u + inner + u;
    assert s[|u + inner + u| - 1] == u[m - 1] && s[0] == u[0];
  }

  lemma BoldKeepsExcess(p: TagPair)
    requires IsOurs(p)
    ensures StartsAtMarks(MARKS, BoldEdit) && KeepsExcess(MARKS, p, MARKS, BoldEdit)
  {
    forall s: string | IsTame(MARKS, s, false) && BoldEdit(s).Some?
      ensures EditOk(MARKS, p, MARKS, s, BoldEdit(s).value)
    {
      WrappedIsOk(p, B, s, "**", Bold(s).value);
    }
  }

  lemma CodeKeepsExcess(p: TagPair)
    requires IsOurs(p)
    ensures StartsAtMarks(MARKS, CodeEdit) && KeepsExcess(MARKS, p, MARKS, CodeEdit)
  {
    forall s: string | IsTame(MARKS, s, false) && CodeEdit(s).Some?
      ensures EditOk(MARKS, p, MARKS, s, CodeEdit(s).value)
    {
      WrappedIsOk(p, CODE, s, "`", Code(s).value);
    }
  }

  /** A bracket in a URL survives its decoding, so such a URL is not safe. */
  lemma {:induction false} ReplaceKeepsChar(s: string, p: string, r: string, c: char)
    requires p != "" && c !in p && c in s
    ensures c in ReplaceAll(s, p, r)
  {
    if p <= s {
      assert s == p + s[|p|..];
      ReplaceKeepsChar(s[|p|..], p, r, c);
    } else if s[0] != c {
      ReplaceKeepsChar(s[1..], p, r, c);
    }
  }

  lemma BracketStays(url: string)
    requires '<' in url
    ensures '<' in Href(url)
  {
    hide ReplaceAll;
    ReplaceKeepsChar(url, QUOT, "\"", '<');
    var a := ReplaceAll(url, QUOT, "\"");
    ReplaceKeepsChar(a, APOS, "'", '<');
    var b := ReplaceAll(a, APOS, "'");
    ReplaceKeepsChar(b, LT, "<", '<');
    var c := ReplaceAll(b, LT, "<");
    ReplaceKeepsChar(c, GT, ">", '<');
    var d := ReplaceAll(c, GT, ">");
    ReplaceKeepsChar(d, AMP, "&", '<');
    var e := ReplaceAll(d, AMP, "&");
    ReplaceKeepsChar(e, "'", "%27", '<');
    ReplaceKeepsChar(ReplaceAll(e, "'", "%27"), "\"", "%22", '<');
  }

  lemma SafeHasNoBracket(url: string)
    requires IsSafeUrl(url)
    ensures '<' !in url
  {
    var n := SchemeLen(url);
    var scheme := url[..n];
    assert scheme == "https://" || scheme == "http://";
    assert url == scheme + url[n..];
  }

  lemma SafeLinkUrl(url: string)
    requires IsSafeUrl(Href(url))
    ensures '<' !in url
  {
    SafeHasNoBracket(Href(url));
    if '<' in url {
      BracketStays(url);
    }
  }

  lemma {:induction false} EncodedChars(s: string)
    ensures forall c :: c in Encode(CODED, s) ==> c !in {'<', '>', '"'}
  {
    if s != "" {
      EncodedChars(s[1..]);
      EntityChars(s[0]);
    }
  }

  lemma EntityChars(x: char)
    ensures forall c :: c in CodeOf(CODED, x) ==> c !in {'<', '>', '"'}
  {
  }

  lemma EscapedChars(s: string)
    ensures forall c :: c in EscapeHtml(s) ==> c !in {'<', '>', '"'}
  {
    EscapeIsEncode(s);
    EncodedChars(s);
  }

  /** The parts of a link in a tame string. */
  lemma LinkParts(s: string, l: LinkText)
    requires IsTame(MARKS, s, false) && Linked(l) <= s
    ensures IsTame(MARKS, l.text, false) && IsTame(MARKS, l.url, false)
  {
    MarksArePlain();
    hide IsTame;
    var rest := s[|Linked(l)|..];
    var c := ")" + rest;
    var b := "](" + (l.url + c);
    assert s == Linked(l) + rest;
    assert s == "" + (['['] + (l.text + b));
    InnerIsTame(MARKS, "", '[', l.text, b);
    assert b == "]" + (['('] + (l.url + c));
    InnerIsTame(MARKS, "]", '(', l.url, c);
  }

  lemma LinkedExcess(p: TagPair, l: LinkText)
    requires IsPair(p) && IsTame(MARKS, l.text, false) && IsTame(MARKS, l.url, false) && '<' !in l.url
    ensures Excess(p, Linked(l)) == Excess(p, l.text)
  {
    var tail := "](" + l.url + ")";
    assert Linked(l) == "[" + l.text + tail;
    hide IsTame;
    NoBracketNoExcess(p, "[");
    NoBracketNoExcess(p, tail);
    MarksAreTame("[");
    ExcessAppend(MARKS, p, "[", l.text);
    MarkInFront("[", l.text);
    ExcessAppend(MARKS, p, "[" + l.text, tail);
  }

  lemma MarkInFront(u: string, s: string)
    requires IsTame(MARKS, u, false) && IsTame(MARKS, s, false)
    ensures IsTame(MARKS, u + s, false)
  {
    TameAppend(MARKS, u, s, false);
  }

  lemma NoBracketNoExcess(p: TagPair, s: string)
    requires IsPair(p) && '<' !in s
    ensures Excess(p, s) == 0
  {
    CountNone(p.open, s);
    CountNone(p.close, s);
  }

  lemma OpenAnchorShape(href: string)
    ensures var o := OpenAnchor(href);
            && IsTame({}, o, false) && '<' !in o[1..] && A.open <= o && |o| > 2 && o[1] == 'a'
  {
    var e, o := EscapeHtml(href), OpenAnchor(href);
    EscapedChars(href);
    hide EscapeHtml;
    assert o[1..] == "a href=\"" + e + "\">" && o[1..|o| - 1] == "a href=\"" + e + "\"";
    assert o[0] == '<' && o[|o| - 1] == '>';
    TagTame({}, o);
  }

  lemma AnchorExcess(p: TagPair, href: string, text: string)
    requires IsOurs(p) && IsTame({}, text, false)
    ensures IsTame({}, Anchor(href, text), false) && Excess(p, Anchor(href, text)) == Excess(p, text)
  {
    hide IsTame, IsPair, Excess, OpenAnchor;
    OursArePairs(p);
    var o := OpenAnchor(href);
    OpenAnchorShape(href);
    TagExcess(p, o);
    TagExcess(p, "</a>");
    TagTame({}, "</a>");
    TameAppendIs(o, text);
    TameAppendIs(o + text, "</a>");
    ExcessAppend({}, p, o, text);
    ExcessAppend({}, p, o + text, "</a>");
    assert p.close[1] == '/' && o[1] == 'a';
    assert p != A ==> p.open[1] != o[1] && p.close[2] != 'a';
  }

  lemma TameAppendIs(a: string, b: string)
    requires IsTame({}, a, false) && IsTame({}, b, false)
    ensures IsTame({}, a + b, false)
  {
    TameAppend({}, a, b, false);
  }

  lemma LinkKeepsExcess(p: TagPair)
    requires IsOurs(p)
    ensures StartsAtMarks(MARKS, LinkEdit) && KeepsExcess(MARKS, p, {}, LinkEdit)
  {
    forall s: string | IsTame(MARKS, s, false) && LinkEdit(s).Some?
      ensures EditOk(MARKS, p, {}, s, LinkEdit(s).value)
    {
      LinkEditIsOk(p, s, Markdown.Link(s).value);
    }
  }

  lemma LinkEditIsOk(p: TagPair, s: string, l: LinkText)
    requires IsOurs(p) && IsTame(MARKS, s, false) && Linked(l) <= s
    ensures var out := if IsSafeUrl(Href(l.url)) then Anchor(Href(l.url), l.text) else Linked(l);
            EditOk(MARKS, p, {}, s, Edit(|Linked(l)|, out))
  {
    MarksArePlain();
    OursArePairs(p);
    var n := |Linked(l)|;
    assert s[..n] == Linked(l) && s[0] == '[' && s[n - 1] == ')';
    LinkParts(s, l);
    if IsSafeUrl(Href(l.url)) {
      SafeLinkUrl(l.url);
      hide Href, IsSafeUrl, IsTame, Excess, Linked;
      TameWeaker(MARKS, {}, l.text, false);
      AnchorExcess(p, Href(l.url), l.text);
      LinkedExcess(p, l);
    } else {
      MatchIsTame(MARKS, s, n);
      TameWeaker(MARKS, {}, s[..n], false);
    }
  }

  // ---- balance ----------------------------------------------------------------------------------

  lemma {:induction false} NoBracketsIsTame(s: string)
    requires '<' !in s && '>' !in s
    ensures IsTame(MARKS, s, false)
  {
    if s != "" {
      assert s[0] in s;
      NoBracketsIsTame(s[1..]);
    }
  }

  lemma BoldPassKeeps(p: TagPair, s: string)
    requires IsOurs(p) && IsTame(MARKS, s, false)
    ensures PassKeeps(p, MARKS, BoldEdit, s)
  {
    hide StartsAtMarks, KeepsExcess, IsTame, IsPair, PassKeeps;
    OursArePairs(p);
    MarksArePlain();
    BoldKeepsExcess(p);
    SubstituteKeepsExcess(MARKS, p, MARKS, BoldEdit, s);
  }

  lemma CodePassKeeps(p: TagPair, s: string)
    requires IsOurs(p) && IsTame(MARKS, s, false)
    ensures PassKeeps(p, MARKS, CodeEdit, s)
  {
    hide StartsAtMarks, KeepsExcess, IsTame, IsPair, PassKeeps;
    OursArePairs(p);
    MarksArePlain();
    CodeKeepsExcess(p);
    SubstituteKeepsExcess(MARKS, p, MARKS, CodeEdit, s);
  }

  lemma LinkPassKeeps(p: TagPair, s: string)
    requires IsOurs(p) && IsTame(MARKS, s, false)
    ensures PassKeeps(p, {}, LinkEdit, s)
  {
    hide StartsAtMarks, KeepsExcess, IsTame, IsPair, PassKeeps;
    OursArePairs(p);
    MarksArePlain();
    LinkKeepsExcess(p);
    SubstituteKeepsExcess(MARKS, p, {}, LinkEdit, s);
  }

  /** As many tags are closed as are opened, of each of the three kinds. */
  lemma TagsBalance(md: string, p: TagPair)
    requires p == B || p == CODE || p == A
    ensures Count(p.open, MdInlineHtml(md)) == Count(p.close, MdInlineHtml(md))
  {
    hide StartsAtMarks, KeepsExcess, IsTame, EscapeHtml, Substitute, Count;
    var s0 := EscapeHtml(md);
    OursArePairs(p);
    EscapedChars(md);
    NoBracketsIsTame(s0);
    NoBracketNoExcess(p, s0);
    BoldPassKeeps(p, s0);
    CodePassKeeps(p, Substitute(BoldEdit, s0));
    LinkPassKeeps(p, Substitute(CodeEdit, Substitute(BoldEdit, s0)));
  }

  // ---- quotes -----------------------------------------------------------------------------------

  /** The quote at `i` opens the value of an emitted href, or closes the one opened before it. */
  ghost predicate IsDelimiter(s: string, i: nat) {
    && i < |s| && s[i] == '"'
    && (|| (i >= 8 && s[i - 8..i + 1] == A.open)
        || exists j: nat :: ClosesHref(s, j, i))
  }

  predicate ClosesHref(s: string, j: nat, i: nat) {
    && 9 <= j <= i && i + 1 < |s| && s[j - 9..j] == A.open && s[i + 1] == '>'
    && forall c :: c in s[j..i] ==> c !in {'<', '>', '"'}
  }

  ghost predicate QuotesDelimit(s: string) {
    forall i :: 0 <= i < |s| && s[i] == '"' ==> IsDelimiter(s, i)
  }

  lemma DelimiterWithin(a: string, b: string, c: string, i: nat)
    requires IsDelimiter(b, i)
    ensures IsDelimiter(a + b + c, |a| + i)
  {
    var s, k := a + b + c, |a| + i;
    if i >= 8 && b[i - 8..i + 1] == A.open {
      assert s[k - 8..k + 1] == b[i - 8..i + 1];
    } else {
      var j: nat :| ClosesHref(b, j, i);
      assert s[|a| + j - 9..|a| + j] == b[j - 9..j] && s[|a| + j..k] == b[j..i];
      assert ClosesHref(s, |a| + j, k);
    }
  }

  lemma QuotesAppend(a: string, b: string)
    requires QuotesDelimit(a) && QuotesDelimit(b)
    ensures QuotesDelimit(a + b)
  {
    var s := a + b;
    assert s == "" + a + b && s == a + b + "";
    forall i | 0 <= i < |s| && s[i] == '"' ensures IsDelimiter(s, i) {
      if i < |a| {
        DelimiterWithin("", a, b, i);
      } else {
        DelimiterWithin(a, b, "", i - |a|);
      }
    }
  }

  lemma UnquotedDelimits(s: string)
    requires '"' !in s
    ensures QuotesDelimit(s)
  {
  }

  /** The two quotes around an attribute value, and no other. */
  lemma ValueQuotes(o: string, e: string)
    requires o == A.open + e + "\">" && forall c :: c in e ==> c !in {'<', '>', '"'}
    ensures IsDelimiter(o, 8) && IsDelimiter(o, 9 + |e|)
  {
    var last := 9 + |e|;
    assert o[0..9] == A.open && o[9..last] == e && o[last] == '"' && o[last + 1] == '>';
    assert o[8 - 8..8 + 1] == o[0..9] && o[9 - 9..9] == o[0..9];
    assert ClosesHref(o, 9, last);
  }

  lemma OtherCharsAreNoQuotes(o: string, e: string, i: nat)
    requires o == A.open + e + "\">" && '"' !in e
    requires i < |o| && i != 8 && i != 9 + |e|
    ensures o[i] != '"'
  {
    if i < 8 {
      assert o[i] == A.open[i];
    } else if i < 9 + |e| {
      assert o[i] == e[i - 9] && e[i - 9] in e;
    }
  }

  lemma OpenAnchorQuotes(href: string)
    ensures QuotesDelimit(OpenAnchor(href))
  {
    var e, o := EscapeHtml(href), OpenAnchor(href);
    EscapedChars(href);
    hide EscapeHtml;
    ValueQuotes(o, e);
    hide IsDelimiter;
    forall i | 0 <= i < |o| && o[i] == '"' ensures IsDelimiter(o, i) {
      if i != 8 && i != 9 + |e| {
        OtherCharsAreNoQuotes(o, e, i);
      }
    }
  }

  lemma AnchorQuotes(href: string, text: string)
    requires '"' !in text
    ensures QuotesDelimit(Anchor(href, text))
  {
    OpenAnchorQuotes(href);
    UnquotedDelimits(text + "</a>");
    hide QuotesDelimit, OpenAnchor;
    QuotesAppend(OpenAnchor(href), text + "</a>");
    assert Anchor(href, text) == OpenAnchor(href) + (text + "</a>");
  }

  /** A pass over text without quotes whose edits write none. */
  lemma {:induction false} StaysUnquoted(edit: string -> Option<Edit>, s: string)
    requires '"' !in s
    requires forall t :: '"' !in t && edit(t).Some? ==> '"' !in edit(t).value.out
    ensures '"' !in Substitute(edit, s)
    decreases |s|
  {
    if s != "" {
      assert s[0] in s;
      if edit(s).Some? && 0 < edit(s).value.len <= |s| {
        StaysUnquoted(edit, s[edit(s).value.len..]);
      } else {
        StaysUnquoted(edit, s[1..]);
      }
    }
  }

  lemma {:induction false} LinksDelimit(s: string)
    requires '"' !in s
    ensures QuotesDelimit(Substitute(LinkEdit, s))
    decreases |s|
  {
    if s != "" {
      assert s[0] in s;
      if LinkEdit(s).Some? {
        LinkOutDelimits(s);
        var e := LinkEdit(s).value;
        assert 0 < e.len <= |s|;
        hide LinkEdit, QuotesDelimit;
        LinksDelimit(s[e.len..]);
        QuotesAppend(e.out, Substitute(LinkEdit, s[e.len..]));
      } else {
        UnquotedDelimits([s[0]]);
        hide LinkEdit, QuotesDelimit;
        LinksDelimit(s[1..]);
        QuotesAppend([s[0]], Substitute(LinkEdit, s[1..]));
      }
    }
  }

  lemma LinkOutDelimits(s: string)
    requires '"' !in s && LinkEdit(s).Some?
    ensures QuotesDelimit(LinkEdit(s).value.out)
  {
    var l := Markdown.Link(s).value;
    assert forall c :: c in Linked(l) ==> c in s;
    assert forall c :: c in l.text ==> c in Linked(l);
    AnchorQuotes(Href(l.url), l.text);
    if !IsSafeUrl(Href(l.url)) {
      UnquotedDelimits(Linked(l));
    }
  }

  lemma BoldAndCodeWriteNoQuotes()
    ensures forall t :: '"' !in t && BoldEdit(t).Some? ==> '"' !in BoldEdit(t).value.out
    ensures forall t :: '"' !in t && CodeEdit(t).Some? ==> '"' !in CodeEdit(t).value.out
  {
    forall t: string | '"' !in t && BoldEdit(t).Some? ensures '"' !in BoldEdit(t).value.out {
      assert forall c :: c in Bold(t).value ==> c in Bolded(Bold(t).value);
    }
    forall t: string | '"' !in t && CodeEdit(t).Some? ensures '"' !in CodeEdit(t).value.out {
      assert forall c :: c in Code(t).value ==> c in Coded(Code(t).value);
    }
  }

  /** Every raw double quote in the converted markdown delimits an emitted href. */
  lemma QuotesDelimitHrefs(md: string)
    ensures QuotesDelimit(MdInlineHtml(md))
  {
    EscapedChars(md);
    BoldAndCodeWriteNoQuotes();
    hide EscapeHtml, BoldEdit, CodeEdit, LinkEdit, QuotesDelimit, Substitute;
    StaysUnquoted(BoldEdit, EscapeHtml(md));
    StaysUnquoted(CodeEdit, Substitute(BoldEdit, EscapeHtml(md)));
    LinksDelimit(Substitute(CodeEdit, Substitute(BoldEdit, EscapeHtml(md))));
  }

  /** And so it does in an entry of the links list. */
  lemma LinkAnchorQuotesDelimit(text: string, url: string)
    ensures QuotesDelimit(LinkAnchor(text, url))
  {
    EscapedChars(text);
    EscapedChars(url);
    hide EscapeHtml, EscapeAttrUrl, IsSafeUrl, QuotesDelimit;
    AnchorQuotes(EscapeAttrUrl(url), EscapeHtml(text));
    UnquotedDelimits(EscapeHtml(text) + ": " + EscapeHtml(url));
  }

  // ---- where links point ------------------------------------------------------------------------

  function PercentChar(c: char): (r: string)
    ensures r != ""
  {
    if c == '\'' then "%27" else if c == '"' then "%22" else [c]
  }

  /** `url` with its quotes percent-encoded and every other character as it is. */
  function Percent(url: string): string {
    if url == "" then "" else PercentChar(url[0]) + Percent(url[1..])
  }

  lemma {:induction false} AttrUrlIsPercent(url: string)
    ensures EscapeAttrUrl(url) == Percent(url)
  {
    if url != "" {
      AttrUrlIsPercent(url[1..]);
      var once := ReplaceAll(url[1..], "'", "%27");
      if url[0] == '\'' {
        ReplaceAbsent("%27", once, "\"", "%22");
      } else {
        assert ([url[0]] + once)[1..] == once;
      }
    }
  }

  /** A link the author wrote in markdown points to the URL as written, its quotes percent-encoded. */
  lemma LinksPointWhereWritten(url: string)
    ensures Href(EscapeHtml(url)) == Percent(url)
  {
    hide EscapeHtml, UnescapeHtml, EscapeAttrUrl, Percent;
    UnescapeUndoesEscape(url);
    AttrUrlIsPercent(url);
  }

  predicate IsUrlChar(c: char) {
    c != '<' && c != '>' && !IsSpace(c)
  }

  predicate IsUrlText(s: string) {
    forall c :: c in s ==> IsUrlChar(c)
  }

  predicate IsHrefText(s: string) {
    forall c :: c in s ==> IsUrlChar(c) && c != '"' && c != '\''
  }

  lemma {:induction false} PercentIsHrefText(url: string)
    ensures IsHrefText(Percent(url)) <==> IsUrlText(url)
    ensures |Percent(url)| >= |url|
  {
    if url != "" {
      PercentIsHrefText(url[1..]);
      PercentCharIsHrefText(url[0]);
      hide PercentChar, IsUrlChar;
      HrefTextAppend(PercentChar(url[0]), Percent(url[1..]));
      UrlTextCons(url);
    }
  }

  lemma HrefTextAppend(a: string, b: string)
    ensures IsHrefText(a + b) <==> IsHrefText(a) && IsHrefText(b)
  {
    assert forall c :: c in a + b <==> c in a || c in b;
  }

  lemma UrlTextCons(s: string)
    requires s != ""
    ensures IsUrlText(s) <==> IsUrlChar(s[0]) && IsUrlText(s[1..])
  {
    assert s == [s[0]] + s[1..];
    assert forall c :: c in s <==> c == s[0] || c in s[1..];
  }

  lemma PercentCharIsHrefText(x: char)
    ensures IsHrefText(PercentChar(x)) <==> IsUrlChar(x)
  {
    assert x in [x];
    assert IsUrlChar('%') && IsUrlChar('2') && IsUrlChar('7') && IsUrlChar('\'') && IsUrlChar('"');
  }

  lemma {:induction false} PercentAppend(a: string, b: string)
    requires '"' !in a && '\'' !in a
    ensures Percent(a + b) == a + Percent(b)
  {
    if a == "" {
      assert a + b == b;
    } else {
      assert a[0] in a && (a + b)[0] == a[0] && (a + b)[1..] == a[1..] + b;
      PercentAppend(a[1..], b);
    }
  }

  lemma PercentKeepsScheme(url: string)
    requires SchemeLen(url) > 0
    ensures var n := SchemeLen(url);
            && SchemeLen(Percent(url)) == n <= |Percent(url)|
            && Percent(url)[n..] == Percent(url[n..])
  {
    var n := SchemeLen(url);
    var scheme, rest := url[..n], url[n..];
    assert scheme == "https://" || scheme == "http://";
    assert url == scheme + rest;
    SchemeStays(scheme, rest, Percent(rest));
    hide SchemeLen, Percent;
    PercentAppend(scheme, rest);
    assert (scheme + Percent(rest))[n..] == Percent(rest);
  }

  /** Quotes do not make a URL unsafe; brackets, white space and another scheme do. */
  lemma SafeUntilBracketOrSpace(url: string)
    requires SchemeLen(url) > 0
    ensures IsSafeUrl(Percent(url)) <==> SchemeLen(url) < |url| && IsUrlText(url[SchemeLen(url)..])
  {
    hide SchemeLen, IsSafeUrl, IsUrlText, IsHrefText;
    var rest := url[SchemeLen(url)..];
    PercentKeepsScheme(url);
    PercentIsHrefText(rest);
    SafeIsHrefText(Percent(url));
    assert rest == "" ==> Percent(rest) == "";
  }

  /** An http or https URL that is longer than its scheme, with no angle bracket or white space after it. */
  predicate IsLinkable(url: string) {
    || ("https://" <= url && |url| > 8 && IsUrlText(url[8..]))
    || ("http://" <= url && |url| > 7 && IsUrlText(url[7..]))
  }

  /** Percent-encoding makes no scheme. */
  lemma {:induction false} PercentPrefix(p: string, s: string)
    requires '%' !in p && p <= Percent(s)
    ensures p <= s
  {
    if p != "" && s != "" {
      assert p[0] == Percent(s)[0] && p[0] in p;
      assert Percent(s)[0] == PercentChar(s[0])[0];
      assert PercentChar(s[0]) == [s[0]];
      assert Percent(s)[1..] == Percent(s[1..]);
      PercentPrefix(p[1..], s[1..]);
    }
  }

  lemma SafeHasScheme(href: string)
    ensures IsSafeUrl(href) ==> "https://" <= href || "http://" <= href
  {
  }

  lemma NoPercentInSchemes()
    ensures '%' !in "https://" && '%' !in "http://"
  {
  }

  lemma LinkableHasScheme(url: string)
    requires SchemeLen(url) == 0
    ensures !("https://" <= url) && !("http://" <= url) && !IsLinkable(url)
  {
    hide IsUrlText;
  }

  lemma SchemeIsOne(url: string)
    requires SchemeLen(url) > 0
    ensures IsLinkable(url) <==> SchemeLen(url) < |url| && IsUrlText(url[SchemeLen(url)..])
  {
    hide IsUrlText;
    assert "https://"[4] == 's' && "http://"[4] == ':';
  }

  lemma SafeIsLinkable(url: string)
    ensures IsSafeUrl(Percent(url)) <==> IsLinkable(url)
  {
    hide IsSafeUrl, IsLinkable, SchemeLen, IsUrlText, Percent;
    if SchemeLen(url) > 0 {
      SafeUntilBracketOrSpace(url);
      SchemeIsOne(url);
    } else {
      NoPercentInSchemes();
      LinkableHasScheme(url);
      SafeHasScheme(Percent(url));
      if IsSafeUrl(Percent(url)) {
        PercentPrefix(if "https://" <= Percent(url) then "https://" else "http://", url);
      }
    }
  }

  /**
   * linkAnchor: an anchor to the URL as written, its quotes percent-encoded, around the label, when the URL is an
   * http or https one without angle brackets or white space; and otherwise "label: url", both escaped.
   */
  lemma LinkAnchorShowsLabelAndUrl(text: string, url: string)
    ensures LinkAnchor(text, url) ==
            if IsLinkable(url) then "<a href=\"" + Encode(CODED, Percent(url)) + "\">" + Encode(CODED, text) + "</a>"
            else Encode(CODED, text) + ": " + Encode(CODED, url)
  {
    hide IsSafeUrl, IsLinkable, Encode, Percent, EscapeHtml, EscapeAttrUrl;
    AttrUrlIsPercent(url);
    SafeIsLinkable(url);
    EscapeIsEncode(text);
    EscapeIsEncode(url);
    EscapeIsEncode(Percent(url));
  }

  lemma SafeIsHrefText(href: string)
    ensures IsSafeUrl(href) <==> 0 < SchemeLen(href) < |href| && IsHrefText(href[SchemeLen(href)..])
  {
  }

  lemma SchemeStays(scheme: string, a: string, b: string)
    requires scheme == "https://" || scheme == "http://"
    ensures SchemeLen(scheme + a) == SchemeLen(scheme + b) == |scheme|
  {
    assert forall i :: 0 <= i < |scheme| ==> (scheme + a)[i] == scheme[i] && (scheme + b)[i] == scheme[i];
    assert (scheme + a)[..|scheme|] == scheme && (scheme + b)[..|scheme|] == scheme;
    assert scheme[4] == 's' || scheme[4] == ':';
  }

  // ---- nesting ----------------------------------------------------------------------------------

  lemma {:induction false} NothingToReplace(s: string, p: string, r: string)
    requires p != "" && p[0] !in s
    ensures ReplaceAll(s, p, r) == s
  {
    ReplaceAbsent(s, "", p, r);
    assert s + "" == s;
  }

  lemma Unescapable(s: string)
    requires '&' !in s && '<' !in s && '>' !in s && '"' !in s
    ensures EscapeHtml(s) == s
  {
    NothingToReplace(s, "&", AMP);
    NothingToReplace(s, "<", LT);
    NothingToReplace(s, ">", GT);
    NothingToReplace(s, "\"", QUOT);
  }

  /** A stretch where the edit matches nowhere. */
  lemma {:induction false} CopiesOver(edit: string -> Option<Edit>, a: string, b: string)
    requires forall i :: 0 <= i < |a| ==> edit(a[i..] + b).None?
    ensures Substitute(edit, a + b) == a + Substitute(edit, b)
  {
    if a == "" {
      assert a + b == b;
    } else {
      assert a[0..] == a && (a + b)[1..] == a[1..] + b;
      forall i | 0 <= i < |a[1..]| ensures edit(a[1..][i..] + b).None? {
        assert a[1..][i..] == a[i + 1..];
      }
      CopiesOver(edit, a[1..], b);
    }
  }

  lemma EditsHead(edit: string -> Option<Edit>, s: string, e: Edit, rest: string)
    requires edit(s) == Some(e) && 0 < e.len <= |s| && s[e.len..] == rest
    ensures Substitute(edit, s) == e.out + Substitute(edit, rest)
  {
  }

  lemma CopiesAll(edit: string -> Option<Edit>, s: string, m: char)
    requires m !in s && forall t: string :: t != "" && t[0] != m ==> edit(t).None?
    ensures Substitute(edit, s) == s
  {
    assert s + "" == s;
    forall i | 0 <= i < |s| ensures edit(s[i..] + "").None? {
      assert (s[i..] + "")[0] == s[i] && s[i] in s;
    }
    CopiesOver(edit, s, "");
  }

  lemma WrapsBold(inner: string, rest: string)
    requires inner != "" && '*' !in inner && '\n' !in inner
    ensures Substitute(BoldEdit, Bolded(inner) + rest) == "<b>" + inner + "</b>" + Substitute(BoldEdit, rest)
  {
    var s := Bolded(inner) + rest;
    BoldIsThePattern(s, inner);
    EditsHead(BoldEdit, s, Edit(|Bolded(inner)|, "<b>" + inner + "</b>"), rest);
  }

  lemma WrapsCode(inner: string, rest: string)
    requires inner != "" && '`' !in inner && '\n' !in inner
    ensures Substitute(CodeEdit, Coded(inner) + rest) == "<code>" + inner + "</code>" + Substitute(CodeEdit, rest)
  {
    var s := Coded(inner) + rest;
    CodeIsThePattern(s, inner);
    EditsHead(CodeEdit, s, Edit(|Coded(inner)|, "<code>" + inner + "</code>"), rest);
  }

  lemma CopiesLetters(edit: string -> Option<Edit>, a: string, b: string, m: char)
    requires m !in a && forall t: string :: t != "" && t[0] != m ==> edit(t).None?
    ensures Substitute(edit, a + b) == a + Substitute(edit, b)
  {
    forall i | 0 <= i < |a| ensures edit(a[i..] + b).None? {
      assert (a[i..] + b)[0] == a[i] && a[i] in a;
    }
    CopiesOver(edit, a, b);
  }

  lemma CrossingTexts()
    ensures "**a `b** c`" == "**" + "a `b" + "**" + " c`"
    ensures "<b>a `b</b> c`" == "<b>" + "a `b" + "</b>" + " c`"
  {
  }

  lemma CrossingMoreTexts()
    ensures "<b>a `b</b> c`" == "<b>a " + ("`" + "b</b> c" + "`" + "")
    ensures "<b>a <code>b</b> c</code>" == "<b>a " + ("<code>" + "b</b> c" + "</code>" + "")
  {
  }

  lemma CrossingBold()
    ensures Substitute(BoldEdit, "**a `b** c`") == "<b>a `b</b> c`"
  {
    hide Substitute, BoldEdit;
    CrossingTexts();
    WrapsBold("a `b", " c`");
    CopiesNoStars(" c`");
  }

  lemma CopiesNoStars(s: string)
    requires '*' !in s
    ensures Substitute(BoldEdit, s) == s
  {
    CopiesAll(BoldEdit, s, '*');
  }

  lemma CopiesNoTicks(a: string, b: string)
    requires '`' !in a
    ensures Substitute(CodeEdit, a + b) == a + Substitute(CodeEdit, b)
  {
    CopiesLetters(CodeEdit, a, b, '`');
  }

  lemma CrossingCode()
    ensures Substitute(CodeEdit, "<b>a `b</b> c`") == "<b>a <code>b</b> c</code>"
  {
    hide Substitute, CodeEdit;
    CrossingMoreTexts();
    CopiesNoTicks("<b>a ", Coded("b</b> c") + "");
    WrapsCode("b</b> c", "");
    NothingLeft();
  }

  lemma NothingLeft()
    ensures Substitute(CodeEdit, "") == ""
  {
  }

  lemma CrossingEscape()
    ensures EscapeHtml("**a `b** c`") == "**a `b** c`"
  {
    hide EscapeHtml;
    Unescapable("**a `b** c`");
  }

  lemma CrossingLinks()
    ensures Substitute(LinkEdit, "<b>a <code>b</b> c</code>") == "<b>a <code>b</b> c</code>"
  {
    hide Substitute;
    CopiesAll(LinkEdit, "<b>a <code>b</b> c</code>", '[');
  }

  /** The tags balance but need not nest: here a bold text ends inside the code that began in it. */
  lemma TagsMayCross()
    ensures MdInlineHtml("**a `b** c`") == "<b>a <code>b</b> c</code>"
  {
    hide EscapeHtml, Substitute, BoldEdit, CodeEdit, LinkEdit;
    CrossingEscape();
    CrossingBold();
    CrossingCode();
    CrossingLinks();
  }
}
