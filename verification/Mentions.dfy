/** Stripping and composing Discord mentions (src/core/discord-mentions.ts). */
module Mentions {
  import opened Types
  import opened Text

  // ---- the two patterns -------------------------------------------------------------------------

  function DigitsLen(s: string): (n: nat)
    ensures n <= |s|
  {
    if s != "" && IsDigit(s[0]) then 1 + DigitsLen(s[1..]) else 0
  }

  /** Where the digits of a mention would start. */
  function SigilLen(s: string): nat {
    if |s| > 2 && (s[2] == '&' || s[2] == '!') then 3 else 2
  }

  /** Length of the match of `<@[&!]?\d+>` at the head of `s`, or 0. */
  function MentionLen(s: string): (n: nat)
    ensures n <= |s|
  {
    if |s| > 2 && s[0] == '<' && s[1] == '@' then
      var k := SigilLen(s);
      var d := DigitsLen(s[k..]);
      if d > 0 && k + d < |s| && s[k + d] == '>' then k + d + 1 else 0
    else 0
  }

  predicate IsWordChar(c: char) {
    'a' <= c <= 'z' || 'A' <= c <= 'Z' || IsDigit(c) || c == '_'
  }

  const EVERYONE := "@everyone"
  const HERE := "@here"

  /** Length of the match of `@(?:everyone|here)\b` at the head of `s`, or 0. */
  function PingLen(s: string): (n: nat)
    ensures n <= |s|
  {
    if EVERYONE <= s && (|s| == 9 || !IsWordChar(s[9])) then 9
    else if HERE <= s && (|s| == 5 || !IsWordChar(s[5])) then 5
    else 0
  }

  /** `s.replace(/<@[&!]?\d+>/g, '')`. */
  function WithoutMentions(s: string): (r: string)
    ensures |r| <= |s|
  {
    if s == "" then ""
    else if MentionLen(s) > 0 then WithoutMentions(s[MentionLen(s)..])
    else [s[0]] + WithoutMentions(s[1..])
  }

  /** `s.replace(/@(?:everyone|here)\b/g, '')`. */
  function WithoutPings(s: string): (r: string)
    ensures |r| <= |s|
  {
    if s == "" then ""
    else if PingLen(s) > 0 then WithoutPings(s[PingLen(s)..])
    else [s[0]] + WithoutPings(s[1..])
  }

  function OnePass(s: string): (r: string)
    ensures |r| <= |s|
  {
    WithoutPings(WithoutMentions(s))
  }

  /** Nothing at the head, and nothing further on. */
  predicate IsClean(s: string) {
    s == "" || (MentionLen(s) == 0 && PingLen(s) == 0 && IsClean(s[1..]))
  }

  lemma {:induction false} MentionsShrink(s: string)
    ensures WithoutMentions(s) == s || |WithoutMentions(s)| < |s|
  {
    if s != "" && MentionLen(s) == 0 {
      MentionsShrink(s[1..]);
    }
  }

  lemma {:induction false} PingsShrink(s: string)
    ensures WithoutPings(s) == s || |WithoutPings(s)| < |s|
  {
    if s != "" && PingLen(s) == 0 {
      PingsShrink(s[1..]);
    }
  }

  /** A pass that changes anything shortens the string, which is why the loop ends. */
  lemma PassShrinks(s: string)
    ensures OnePass(s) == s || |OnePass(s)| < |s|
  {
    MentionsShrink(s);
    PingsShrink(WithoutMentions(s));
  }

  lemma {:induction false} UntouchedIsClean(s: string)
    ensures WithoutMentions(s) == s && WithoutPings(s) == s <==> IsClean(s)
  {
    if s != "" {
      UntouchedIsClean(s[1..]);
    }
  }

  /** A pass changes nothing exactly when nothing is left to strip. */
  lemma FixedPointIsClean(s: string)
    ensures OnePass(s) == s <==> IsClean(s)
  {
    MentionsShrink(s);
    PingsShrink(WithoutMentions(s));
    UntouchedIsClean(s);
  }

  // ---- the strip --------------------------------------------------------------------------------

  function FixedPoint(s: string): (r: string)
    decreases |s|
  {
    PassShrinks(s);
    if OnePass(s) == s then s else FixedPoint(OnePass(s))
  }

  function SpacesLen(s: string): (n: nat)
    ensures n <= |s|
  {
    if s != "" && IsSpace(s[0]) then 1 + SpacesLen(s[1..]) else 0
  }

  /** `s.replace(/\s+/g, ' ')`. */
  function Collapse(s: string): (r: string)
    ensures s != "" ==> r != "" && (IsSpace(r[0]) <==> IsSpace(s[0]))
  {
    if s == "" then ""
    else if IsSpace(s[0]) then " " + Collapse(s[SpacesLen(s)..])
    else [s[0]] + Collapse(s[1..])
  }

  function Stripped(s: string): string {
    Trim(Collapse(FixedPoint(s)))
  }

  /** stripRoleMentions: the do-while loop, then the whitespace. */
  method StripRoleMentions(raw: string) returns (r: string)
    ensures r == Stripped(raw)
  {
    var s := raw;
    var prev := s;
    s := OnePass(s);
    PassShrinks(prev);
    while s != prev
      invariant s == OnePass(prev) && FixedPoint(raw) == FixedPoint(prev)
      invariant s == prev || |s| < |prev|
      decreases |prev|
    {
      prev := s;
      s := OnePass(s);
      PassShrinks(prev);
    }
    r := Trim(Collapse(s));
  }

  lemma {:induction false} FixedPointCleans(s: string)
    ensures IsClean(FixedPoint(s))
    decreases |s|
  {
    PassShrinks(s);
    FixedPointIsClean(s);
    if OnePass(s) != s {
      FixedPointCleans(OnePass(s));
    }
  }

  // ---- whitespace does not create mentions ------------------------------------------------------

  /** A string that a run of non-spaces can end before. */
  predicate Breaks(s: string) {
    s == "" || IsSpace(s[0])
  }

  predicate NoSpaces(s: string) {
    forall c :: c in s ==> !IsSpace(c)
  }

  lemma {:induction false} DigitsStopAtBreak(w: string, x: string)
    requires Breaks(x)
    ensures DigitsLen(w + x) == DigitsLen(w)
  {
    if w == "" {
      assert w + x == x;
    } else {
      assert (w + x)[1..] == w[1..] + x;
      DigitsStopAtBreak(w[1..], x);
    }
  }

  /** Neither pattern looks past the first space. */
  lemma PatternsStopAtBreak(w: string, x: string)
    requires NoSpaces(w) && Breaks(x)
    ensures MentionLen(w + x) == MentionLen(w) && PingLen(w + x) == PingLen(w)
  {
    MentionStopsAtBreak(w, x);
    PingStopsAtBreak(w, x);
  }

  lemma BreakComesAfter(w: string, x: string)
    requires NoSpaces(w) && Breaks(x)
    ensures var s := w + x;
            (forall i :: 0 <= i < |w| ==> s[i] == w[i]) && (|w| < |s| ==> IsSpace(s[|w|]))
  {
    hide IsSpace;
  }

  lemma MentionStopsAtBreak(w: string, x: string)
    requires NoSpaces(w) && Breaks(x)
    ensures MentionLen(w + x) == MentionLen(w)
  {
    hide DigitsLen, NoSpaces;
    var s := w + x;
    BreakComesAfter(w, x);
    if |s| > 2 && s[0] == '<' && s[1] == '@' {
      assert |w| >= 2;
      if |w| == 2 {
        assert s[2..] == x;
        DigitsStopAtBreak("", x);
        assert "" + x == x;
      } else {
        var k := SigilLen(s);
        assert SigilLen(w) == k;
        assert s[k..] == w[k..] + x;
        DigitsStopAtBreak(w[k..], x);
      }
    }
  }

  lemma PingStopsAtBreak(w: string, x: string)
    requires NoSpaces(w) && Breaks(x)
    ensures PingLen(w + x) == PingLen(w)
  {
    var s := w + x;
    assert forall i :: 0 <= i < |w| ==> s[i] == w[i];
    assert |w| < |s| ==> s[|w|] == x[0] && IsSpace(s[|w|]);
    PrefixStopsAtBreak(EVERYONE, w, x);
    PrefixStopsAtBreak(HERE, w, x);
  }

  lemma PrefixStopsAtBreak(p: string, w: string, x: string)
    requires NoSpaces(p) && Breaks(x)
    ensures p <= w + x <==> p <= w
  {
    var s := w + x;
    if |w| < |p| {
      assert p[|w|] in p;
      assert |w| < |s| ==> s[|w|] == x[0];
    }
  }

  /** The non-space run a string begins with. */
  function WordLen(s: string): (n: nat)
    ensures n <= |s| && NoSpaces(s[..n]) && Breaks(s[n..])
  {
    if s == "" || IsSpace(s[0]) then 0
    else
      var n := WordLen(s[1..]);
      assert s[..n + 1] == [s[0]] + s[1..][..n];
      n + 1
  }

  lemma {:induction false} CollapseKeepsWord(s: string)
    ensures WordLen(Collapse(s)) == WordLen(s) && Collapse(s)[..WordLen(s)] == s[..WordLen(s)]
  {
    if s != "" && !IsSpace(s[0]) {
      CollapseKeepsWord(s[1..]);
      var c := Collapse(s);
      assert c[1..] == Collapse(s[1..]);
      assert c[..WordLen(s)] == [s[0]] + c[1..][..WordLen(s) - 1];
    }
  }

  lemma {:induction false} TrimEndKeepsWord(s: string)
    ensures WordLen(TrimEnd(s)) == WordLen(s) && TrimEnd(s)[..WordLen(s)] == s[..WordLen(s)]
    decreases |s|
  {
    if s != "" && IsSpace(s[|s| - 1]) {
      var init := s[..|s| - 1];
      TrimEndKeepsWord(init);
      DropLastSpaceKeepsWord(init, s[|s| - 1]);
      assert s == init + [s[|s| - 1]];
    }
  }

  lemma {:induction false} DropLastSpaceKeepsWord(s: string, c: char)
    requires IsSpace(c)
    ensures WordLen(s + [c]) == WordLen(s) && (s + [c])[..WordLen(s)] == s[..WordLen(s)]
  {
    if s != "" && !IsSpace(s[0]) {
      assert (s + [c])[1..] == s[1..] + [c];
      DropLastSpaceKeepsWord(s[1..], c);
    }
  }

  /** Strings with the same first word match alike. */
  lemma SameWordMatchesAlike(s: string, t: string)
    requires WordLen(s) == WordLen(t) && s[..WordLen(s)] == t[..WordLen(t)]
    ensures MentionLen(s) == MentionLen(t) && PingLen(s) == PingLen(t)
  {
    var n := WordLen(s);
    assert s == s[..n] + s[n..] && t == t[..n] + t[n..];
    PatternsStopAtBreak(s[..n], s[n..]);
    PatternsStopAtBreak(t[..n], t[n..]);
  }

  lemma {:induction false} CleanTail(s: string, n: nat)
    requires IsClean(s) && n <= |s|
    ensures IsClean(s[n..])
  {
    if n > 0 {
      CleanTail(s[1..], n - 1);
      assert s[1..][n - 1..] == s[n..];
    }
  }

  lemma {:induction false} CollapseKeepsClean(s: string)
    requires IsClean(s)
    ensures IsClean(Collapse(s))
    decreases |s|
  {
    if s != "" {
      var c := Collapse(s);
      CollapseKeepsWord(s);
      SameWordMatchesAlike(s, c);
      if IsSpace(s[0]) {
        CleanTail(s, SpacesLen(s));
        CollapseKeepsClean(s[SpacesLen(s)..]);
        assert c[1..] == Collapse(s[SpacesLen(s)..]);
      } else {
        CollapseKeepsClean(s[1..]);
        assert c[1..] == Collapse(s[1..]);
      }
    }
  }

  lemma {:induction false} TrimStartIsTail(s: string)
    ensures |TrimStart(s)| <= |s| && TrimStart(s) == s[|s| - |TrimStart(s)|..]
  {
    if s != "" && IsSpace(s[0]) {
      TrimStartIsTail(s[1..]);
    }
  }

  lemma {:induction false} TrimEndIsPrefix(s: string)
    ensures TrimEnd(s) <= s
    decreases |s|
  {
    if s != "" && IsSpace(s[|s| - 1]) {
      TrimEndIsPrefix(s[..|s| - 1]);
    }
  }

  lemma {:induction false} TrimEndOfTail(s: string)
    requires s != "" && TrimEnd(s) != ""
    ensures TrimEnd(s[1..]) == TrimEnd(s)[1..]
    decreases |s|
  {
    if IsSpace(s[|s| - 1]) {
      if |s| == 1 {
        assert TrimEnd(s) == TrimEnd("");
      } else {
        TrimEndOfTail(s[..|s| - 1]);
        assert s[1..][..|s| - 2] == s[..|s| - 1][1..];
      }
    }
  }

  lemma {:induction false} TrimEndKeepsClean(s: string)
    requires IsClean(s)
    ensures IsClean(TrimEnd(s))
  {
    if TrimEnd(s) != "" {
      TrimEndIsPrefix(s);
      TrimEndKeepsWord(s);
      SameWordMatchesAlike(s, TrimEnd(s));
      TrimEndOfTail(s);
      TrimEndKeepsClean(s[1..]);
    }
  }

  /** The stripped prefix contains no mention of either kind, even after its whitespace is tidied. */
  lemma StrippedIsClean(s: string)
    ensures IsClean(Stripped(s))
  {
    var f := Collapse(FixedPoint(s));
    FixedPointCleans(s);
    CollapseKeepsClean(FixedPoint(s));
    TrimStartIsTail(f);
    CleanTail(f, |f| - |TrimStart(f)|);
    TrimEndKeepsClean(TrimStart(f));
  }

  // ---- stripping twice is stripping once --------------------------------------------------------

  predicate TightAt(s: string, i: nat)
    requires i < |s|
  {
    IsSpace(s[i]) ==> s[i] == ' ' && (i + 1 < |s| ==> !IsSpace(s[i + 1]))
  }

  /** Every run of white space is one plain space. */
  predicate IsTight(s: string) {
    forall i :: 0 <= i < |s| ==> TightAt(s, i)
  }

  predicate IsTrimmed(s: string) {
    s != "" ==> !IsSpace(s[0]) && !IsSpace(s[|s| - 1])
  }

  lemma {:induction false} SpacesEndAtNonSpace(s: string)
    ensures SpacesLen(s) < |s| ==> !IsSpace(s[SpacesLen(s)])
  {
    if s != "" && IsSpace(s[0]) {
      SpacesEndAtNonSpace(s[1..]);
    }
  }

  lemma {:induction false} CollapseIsTight(s: string)
    ensures IsTight(Collapse(s))
    decreases |s|
  {
    if s != "" {
      var rest := if IsSpace(s[0]) then s[SpacesLen(s)..] else s[1..];
      CollapseIsTight(rest);
      SpacesEndAtNonSpace(s);
      var c, d := Collapse(s), Collapse(rest);
      assert c[1..] == d;
      forall i | 0 <= i < |c| ensures TightAt(c, i) {
        assert i > 0 ==> TightAt(d, i - 1);
      }
    }
  }

  lemma {:induction false} TightIsCollapsed(s: string)
    requires IsTight(s)
    ensures Collapse(s) == s
  {
    if s != "" {
      assert TightAt(s, 0);
      assert IsSpace(s[0]) ==> SpacesLen(s) == 1;
      forall i | 0 <= i < |s[1..]| ensures TightAt(s[1..], i) {
        assert TightAt(s, i + 1);
      }
      TightIsCollapsed(s[1..]);
    }
  }

  lemma {:induction false} TrimStartHead(s: string)
    ensures TrimStart(s) != "" ==> !IsSpace(TrimStart(s)[0])
  {
    if s != "" && IsSpace(s[0]) {
      TrimStartHead(s[1..]);
    }
  }

  lemma {:induction false} TrimEndLast(s: string)
    ensures TrimEnd(s) != "" ==> !IsSpace(TrimEnd(s)[|TrimEnd(s)| - 1])
    decreases |s|
  {
    if s != "" && IsSpace(s[|s| - 1]) {
      TrimEndLast(s[..|s| - 1]);
    }
  }

  lemma TrimKeepsTight(s: string)
    requires IsTight(s)
    ensures IsTight(Trim(s)) && IsTrimmed(Trim(s))
  {
    var t, r := TrimStart(s), Trim(s);
    TrimStartIsTail(s);
    TrimEndIsPrefix(t);
    TrimStartHead(s);
    TrimEndLast(t);
    forall i | 0 <= i < |r| ensures TightAt(r, i) {
      assert TightAt(s, |s| - |t| + i);
    }
  }

  lemma StrippedIsTidy(s: string)
    ensures IsTight(Stripped(s)) && IsTrimmed(Stripped(s))
  {
    CollapseIsTight(FixedPoint(s));
    TrimKeepsTight(Collapse(FixedPoint(s)));
  }

  /** Stripping what has been stripped changes nothing. */
  lemma StrippingIsIdempotent(s: string)
    ensures Stripped(Stripped(s)) == Stripped(s)
  {
    var r := Stripped(s);
    StrippedIsClean(s);
    FixedPointIsClean(r);
    StrippedIsTidy(s);
    TightIsCollapsed(r);
  }

  // ---- composing the line -----------------------------------------------------------------------

  /** One entry of the stored role list: not a pair of strings, or one. */
  datatype RawRole = Malformed | RawRole(name: string, id: string)

  datatype Role = Role(name: string, id: string)

  /** A destination's config; `roles` that are not an array count as none. */
  datatype Config = Config(prefix: string, roles: seq<RawRole>)

  const BUILTINS := ["everyone", "here"]

  /** Blank names and ids are dropped, and so is an entry that would shadow a built-in. */
  function ParseRole(r: RawRole): seq<Role> {
    if r.Malformed? || Trim(r.name) == "" || Trim(r.id) == "" || Trim(r.id) in BUILTINS then []
    else [Role(Trim(r.name), Trim(r.id))]
  }

  /** parseDiscordRoles. */
  function ParseRoles(raw: seq<RawRole>): seq<Role> {
    if raw == [] then []
    else ParseRole(raw[0]) + ParseRoles(raw[1..])
  }

  /** The configured ids that were selected, in config order. */
  function SelectedIds(roles: seq<Role>, selected: seq<string>): seq<string> {
    if roles == [] then []
    else (if roles[0].id in selected then [roles[0].id] else []) + SelectedIds(roles[1..], selected)
  }

  function BuiltinMentions(selected: seq<string>): seq<string> {
    (if "everyone" in selected then [EVERYONE] else []) + (if "here" in selected then [HERE] else [])
  }

  function RoleMention(id: string): string {
    "<@&" + id + ">"
  }

  function RoleMentions(ids: seq<string>): seq<string> {
    if ids == [] then [] else [RoleMention(ids[0])] + RoleMentions(ids[1..])
  }

  function Join(parts: seq<string>): string {
    if parts == [] then ""
    else if |parts| == 1 then parts[0]
    else parts[0] + " " + Join(parts[1..])
  }

  /** What the selection asks for: the built-ins, then the roles. */
  function Wanted(cfg: Config, selected: seq<string>): seq<string> {
    BuiltinMentions(selected) + RoleMentions(SelectedIds(ParseRoles(cfg.roles), selected))
  }

  function PrefixPart(prefix: string): seq<string> {
    if prefix != "" then [prefix] else []
  }

  function Line(cfg: Config, selected: seq<string>): string {
    Trim(Join(PrefixPart(Stripped(cfg.prefix)) + Wanted(cfg, selected)))
  }

  /** composeMentionLine. */
  function ComposeMentionLine(cfg: Config, selected: seq<string>): Option<string> {
    if Line(cfg, selected) == "" then None else Some(Line(cfg, selected))
  }

  /** Length of the match of `<@&(\d+)>` at the head of `s`, or 0. */
  function RoleLen(s: string): (n: nat)
    ensures n > 0 ==> 5 <= n <= |s|
  {
    if MentionLen(s) > 0 && s[2] == '&' then MentionLen(s) else 0
  }

  /** Length of whatever Discord would resolve at the head of `s`: a mention or a ping. */
  function HitLen(s: string): (n: nat)
    ensures n <= |s|
  {
    if MentionLen(s) > 0 then MentionLen(s) else PingLen(s)
  }

  /** The matches of a pattern in `s`, left to right; `len` is its match length at the head. */
  function Matches(len: string -> nat, s: string): seq<string> {
    if s == "" then []
    else if 0 < len(s) <= |s| then [s[..len(s)]] + Matches(len, s[len(s)..])
    else Matches(len, s[1..])
  }

  function Captures(ms: seq<string>): (r: seq<string>)
    ensures |r| == |ms|
  {
    if ms == [] then []
    else [if |ms[0]| > 3 then ms[0][3..|ms[0]| - 1] else ""] + Captures(ms[1..])
  }

  /** The captures of `s.matchAll(/<@&(\d+)>/g)`. */
  function RoleIds(s: string): seq<string> {
    Captures(Matches(RoleLen, s))
  }

  /** Everything in `s` that Discord resolves. */
  function Hits(s: string): seq<string> {
    Matches(HitLen, s)
  }

  /** mentionedRoleIds. */
  function MentionedRoleIds(cfg: Config, selected: seq<string>): seq<string> {
    match ComposeMentionLine(cfg, selected)
    case None => []
    case Some(line) => RoleIds(line)
  }

  // ---- scanning breaks at spaces ----------------------------------------------------------------

  lemma {:induction false} WordStopsAtBreak(a: string, x: string)
    requires Breaks(x)
    ensures WordLen(a + x) == WordLen(a) && (a + x)[..WordLen(a)] == a[..WordLen(a)]
  {
    if a == "" {
      assert a + x == x;
    } else if !IsSpace(a[0]) {
      assert (a + x)[1..] == a[1..] + x;
      WordStopsAtBreak(a[1..], x);
    }
  }

  /** A pattern that never looks past a space. */
  ghost predicate StopsAtBreaks(len: string -> nat) {
    && (forall s :: len(s) <= |s|)
    && forall a, x :: Breaks(x) ==> len(a + x) == len(a)
  }

  lemma PatternsAreWordBound()
    ensures StopsAtBreaks(HitLen) && StopsAtBreaks(RoleLen)
  {
    forall a: string, x: string | Breaks(x)
      ensures HitLen(a + x) == HitLen(a) && RoleLen(a + x) == RoleLen(a)
    {
      WordStopsAtBreak(a, x);
      SameWordMatchesAlike(a, a + x);
      SigilOfMention(a);
      SigilOfMention(a + x);
    }
  }

  lemma SigilOfMention(s: string)
    ensures MentionLen(s) > 0 ==> WordLen(s) > 2
  {
    var w := s[..WordLen(s)];
    assert s == w + s[WordLen(s)..];
    PatternsStopAtBreak(w, s[WordLen(s)..]);
  }

  lemma StopsAtBreak(len: string -> nat, a: string, x: string)
    requires StopsAtBreaks(len) && Breaks(x)
    ensures len(a + x) == len(a) <= |a|
  {
  }

  lemma {:induction false} ScanStopsAtBreak(len: string -> nat, a: string, x: string)
    requires StopsAtBreaks(len) && Breaks(x)
    ensures Matches(len, a + x) == Matches(len, a) + Matches(len, x)
    decreases |a|
  {
    hide StopsAtBreaks, Breaks;
    if a == "" {
      assert a + x == x;
    } else {
      StopsAtBreak(len, a, x);
      var n := len(a);
      var h := if n > 0 then n else 1;
      assert (a + x)[h..] == a[h..] + x && (a + x)[..n] == a[..n];
      ScanStopsAtBreak(len, a[h..], x);
    }
  }

  function AllMatches(len: string -> nat, parts: seq<string>): seq<string> {
    if parts == [] then [] else Matches(len, parts[0]) + AllMatches(len, parts[1..])
  }

  lemma ScanSpace(len: string -> nat, s: string)
    requires StopsAtBreaks(len)
    ensures Matches(len, " " + s) == Matches(len, s)
  {
    StopsAtBreak(len, "", " " + s);
    hide StopsAtBreaks;
    assert "" + (" " + s) == " " + s;
    assert (" " + s)[1..] == s;
  }

  lemma {:induction false} ScanJoin(len: string -> nat, parts: seq<string>)
    requires StopsAtBreaks(len)
    ensures Matches(len, Join(parts)) == AllMatches(len, parts)
  {
    hide StopsAtBreaks;
    if |parts| == 1 {
      assert AllMatches(len, parts[1..]) == [];
    } else if |parts| > 1 {
      ScanJoin(len, parts[1..]);
      var rest := " " + Join(parts[1..]);
      assert Join(parts) == parts[0] + rest;
      ScanStopsAtBreak(len, parts[0], rest);
      ScanSpace(len, Join(parts[1..]));
    }
  }

  lemma {:induction false} AllAppend(len: string -> nat, a: seq<string>, b: seq<string>)
    ensures AllMatches(len, a + b) == AllMatches(len, a) + AllMatches(len, b)
  {
    if a == [] {
      assert a + b == b;
    } else {
      assert (a + b)[1..] == a[1..] + b;
      AllAppend(len, a[1..], b);
    }
  }

  lemma {:induction false} CleanHasNoMatches(s: string)
    requires IsClean(s)
    ensures Matches(HitLen, s) == [] && Matches(RoleLen, s) == []
  {
    if s != "" {
      CleanHasNoMatches(s[1..]);
    }
  }

  lemma PrefixHasNoMatches(cfg: Config)
    ensures Matches(HitLen, Stripped(cfg.prefix)) == [] && Matches(RoleLen, Stripped(cfg.prefix)) == []
  {
    StrippedIsClean(cfg.prefix);
    CleanHasNoMatches(Stripped(cfg.prefix));
  }

  // ---- the line is already trimmed --------------------------------------------------------------

  predicate Parts(parts: seq<string>) {
    forall p :: p in parts ==> p != "" && IsTrimmed(p)
  }

  lemma {:induction false} JoinIsTrimmed(parts: seq<string>)
    requires Parts(parts)
    ensures IsTrimmed(Join(parts)) && (parts != [] ==> Join(parts) != "")
  {
    if |parts| > 1 {
      assert parts[0] in parts;
      assert forall p :: p in parts[1..] ==> p in parts;
      JoinIsTrimmed(parts[1..]);
    } else if |parts| == 1 {
      assert parts[0] in parts;
    }
  }

  lemma {:induction false} RoleMentionsAreParts(ids: seq<string>)
    ensures Parts(RoleMentions(ids))
  {
    if ids != [] {
      RoleMentionsAreParts(ids[1..]);
    }
  }

  lemma BuiltinMentionsAreParts(selected: seq<string>)
    ensures Parts(BuiltinMentions(selected))
  {
    assert EVERYONE[0] == HERE[0] == '@' && EVERYONE[8] == HERE[4] == 'e';
  }

  lemma TrimmedIsTrimmed(s: string)
    requires IsTrimmed(s)
    ensures Trim(s) == s
  {
  }

  lemma LineIsJoin(cfg: Config, selected: seq<string>)
    ensures Line(cfg, selected) == Join(PrefixPart(Stripped(cfg.prefix)) + Wanted(cfg, selected))
  {
    var parts := PrefixPart(Stripped(cfg.prefix)) + Wanted(cfg, selected);
    assert Parts(parts) by {
      StrippedIsTidy(cfg.prefix);
      BuiltinMentionsAreParts(selected);
      RoleMentionsAreParts(SelectedIds(ParseRoles(cfg.roles), selected));
    }
    JoinIsTrimmed(parts);
    TrimmedIsTrimmed(Join(parts));
  }

  /** The prefix contributes nothing: what a pattern finds in the line, it finds in the wanted parts. */
  lemma LineIsScannedByParts(len: string -> nat, cfg: Config, selected: seq<string>)
    requires StopsAtBreaks(len)
    requires Matches(len, Stripped(cfg.prefix)) == []
    ensures Matches(len, Line(cfg, selected))
         == AllMatches(len, BuiltinMentions(selected))
          + AllMatches(len, RoleMentions(SelectedIds(ParseRoles(cfg.roles), selected)))
  {
    var lead := PrefixPart(Stripped(cfg.prefix));
    LineIsJoin(cfg, selected);
    ScanJoin(len, lead + Wanted(cfg, selected));
    AllAppend(len, lead, Wanted(cfg, selected));
    AllAppend(len, BuiltinMentions(selected), RoleMentions(SelectedIds(ParseRoles(cfg.roles), selected)));
    assert AllMatches(len, lead) == [];
  }

  // ---- the selection is what is mentioned -------------------------------------------------------

  lemma {:induction false} DigitsLenOfDigits(s: string, x: string)
    requires forall c :: c in s ==> IsDigit(c)
    requires x != "" && !IsDigit(x[0])
    ensures DigitsLen(s + x) == |s|
  {
    if s == "" {
      assert s + x == x;
    } else {
      assert s[0] in s;
      assert (s + x)[1..] == s[1..] + x;
      DigitsLenOfDigits(s[1..], x);
    }
  }

  lemma DigitIdIsMention(id: string)
    requires AllDigits(id)
    ensures HitLen(RoleMention(id)) == RoleLen(RoleMention(id)) == |RoleMention(id)|
  {
    var m := RoleMention(id);
    assert m[3..] == id + ">";
    DigitsLenOfDigits(id, ">");
  }

  lemma WholeMatch(len: string -> nat, s: string)
    requires s != "" && len(s) == |s|
    ensures Matches(len, s) == [s]
  {
    assert s[|s|..] == "" && s[..|s|] == s;
  }

  lemma {:induction false} DigitIdsScan(ids: seq<string>)
    requires forall id :: id in ids ==> AllDigits(id)
    ensures AllMatches(HitLen, RoleMentions(ids)) == AllMatches(RoleLen, RoleMentions(ids)) == RoleMentions(ids)
  {
    if ids != [] {
      DigitIdIsMention(ids[0]);
      WholeMatch(HitLen, RoleMention(ids[0]));
      WholeMatch(RoleLen, RoleMention(ids[0]));
      DigitIdsScan(ids[1..]);
    }
  }

  lemma {:induction false} MentionsCapture(ids: seq<string>)
    ensures Captures(RoleMentions(ids)) == ids
  {
    if ids != [] {
      var m := RoleMention(ids[0]);
      assert m[3..|m| - 1] == ids[0];
      MentionsCapture(ids[1..]);
    }
  }

  lemma BuiltinsScan(selected: seq<string>)
    ensures AllMatches(HitLen, BuiltinMentions(selected)) == BuiltinMentions(selected)
    ensures AllMatches(RoleLen, BuiltinMentions(selected)) == []
  {
    var everyone := if "everyone" in selected then [EVERYONE] else [];
    var here := if "here" in selected then [HERE] else [];
    BuiltinScan(EVERYONE);
    BuiltinScan(HERE);
    AllAppend(HitLen, everyone, here);
    AllAppend(RoleLen, everyone, here);
  }

  lemma BuiltinScan(s: string)
    requires s == EVERYONE || s == HERE
    ensures AllMatches(HitLen, [s]) == [s] && AllMatches(RoleLen, [s]) == []
  {
    assert s[0] == '@' && PingLen(s) == |s|;
    WholeMatch(HitLen, s);
    NoOpenNoRoles(s);
    assert [s][1..] == [];
  }

  lemma {:induction false} NoOpenNoRoles(s: string)
    requires '<' !in s
    ensures Matches(RoleLen, s) == []
  {
    if s != "" {
      assert s[0] in s;
      NoOpenNoRoles(s[1..]);
    }
  }

  predicate DigitIds(cfg: Config, selected: seq<string>) {
    forall id :: id in SelectedIds(ParseRoles(cfg.roles), selected) ==> AllDigits(id)
  }

  /** With snowflake ids, what Discord resolves in the line is exactly what was selected, in order. */
  lemma LineMentionsExactlyTheSelection(cfg: Config, selected: seq<string>)
    requires DigitIds(cfg, selected)
    ensures Hits(Line(cfg, selected)) == Wanted(cfg, selected)
  {
    PatternsAreWordBound();
    PrefixHasNoMatches(cfg);
    LineIsScannedByParts(HitLen, cfg, selected);
    BuiltinsScan(selected);
    DigitIdsScan(SelectedIds(ParseRoles(cfg.roles), selected));
  }

  lemma {:induction false} DigitsLenAreDigits(s: string)
    ensures forall c :: c in s[..DigitsLen(s)] ==> IsDigit(c)
  {
    if s != "" && IsDigit(s[0]) {
      DigitsLenAreDigits(s[1..]);
      assert s[..DigitsLen(s)] == [s[0]] + s[1..][..DigitsLen(s[1..])];
    }
  }

  lemma RoleCapture(s: string)
    requires RoleLen(s) > 0
    ensures AllDigits(s[3..RoleLen(s) - 1])
  {
    DigitsLenAreDigits(s[3..]);
    assert s[3..RoleLen(s) - 1] == s[3..][..DigitsLen(s[3..])];
  }

  lemma {:induction false} ScannedIdsAreDigits(s: string)
    ensures forall id :: id in RoleIds(s) ==> AllDigits(id)
    decreases |s|
  {
    if s != "" {
      var n := RoleLen(s);
      if n > 0 {
        RoleCapture(s);
        assert s[..n][3..n - 1] == s[3..n - 1];
        ScannedIdsAreDigits(s[n..]);
      } else {
        ScannedIdsAreDigits(s[1..]);
      }
    }
  }

  lemma RoleMatchesOfLine(cfg: Config, selected: seq<string>)
    requires DigitIds(cfg, selected)
    ensures Matches(RoleLen, Line(cfg, selected)) == RoleMentions(SelectedIds(ParseRoles(cfg.roles), selected))
  {
    PatternsAreWordBound();
    PrefixHasNoMatches(cfg);
    LineIsScannedByParts(RoleLen, cfg, selected);
    BuiltinsScan(selected);
    DigitIdsScan(SelectedIds(ParseRoles(cfg.roles), selected));
  }

  lemma NoLineNoRoles(cfg: Config, selected: seq<string>)
    ensures MentionedRoleIds(cfg, selected) == RoleIds(Line(cfg, selected))
  {
    assert Matches(RoleLen, "") == [];
  }

  /**
   * mentionedRoleIds reads the selected ids back, in config order, exactly when every one of them
   * is a string of digits, which the stored config does not guarantee.
   */
  lemma MentionedIdsAreTheSelectedIds(cfg: Config, selected: seq<string>)
    ensures MentionedRoleIds(cfg, selected) == SelectedIds(ParseRoles(cfg.roles), selected)
       <==> DigitIds(cfg, selected)
  {
    NoLineNoRoles(cfg, selected);
    ScannedIdsAreDigits(Line(cfg, selected));
    if DigitIds(cfg, selected) {
      RoleMatchesOfLine(cfg, selected);
      MentionsCapture(SelectedIds(ParseRoles(cfg.roles), selected));
    }
  }

  // ---- whom the line mentions, entry by entry ---------------------------------------------------

  predicate IsBlankText(s: string) {
    forall i :: 0 <= i < |s| ==> IsSpace(s[i])
  }

  /** An entry the line mentions: named, not a built-in, and selected by its id, blanks around it aside. */
  predicate IsPicked(r: RawRole, selected: seq<string>) {
    && r.RawRole? && !IsBlankText(r.name) && !IsBlankText(r.id)
    && Trim(r.id) != "everyone" && Trim(r.id) != "here" && Trim(r.id) in selected
  }

  /** The positions of the picked entries, in order. */
  predicate ArePicks(raw: seq<RawRole>, selected: seq<string>, picks: seq<nat>) {
    && (forall j, k :: 0 <= j < k < |picks| ==> picks[j] < picks[k])
    && (forall j :: 0 <= j < |picks| ==> picks[j] < |raw|)
    && (forall i :: 0 <= i < |raw| ==> (i in picks <==> IsPicked(raw[i], selected)))
  }

  predicate SpellsPicks(raw: seq<RawRole>, picks: seq<nat>, ids: seq<string>) {
    |ids| == |picks|
    && forall j :: 0 <= j < |picks| ==> picks[j] < |raw| && raw[picks[j]].RawRole? && ids[j] == Trim(raw[picks[j]].id)
  }

  lemma {:induction false} SelectedAppend(a: seq<Role>, b: seq<Role>, selected: seq<string>)
    ensures SelectedIds(a + b, selected) == SelectedIds(a, selected) + SelectedIds(b, selected)
  {
    if a == [] {
      assert a + b == b;
    } else {
      assert (a + b)[1..] == a[1..] + b;
      SelectedAppend(a[1..], b, selected);
    }
  }

  lemma OneRole(r: RawRole, selected: seq<string>)
    ensures IsPicked(r, selected) ==> r.RawRole?
    ensures SelectedIds(ParseRole(r), selected) == if IsPicked(r, selected) then [Trim(r.id)] else []
  {
    if r.RawRole? {
      TrimsToNothing(r.name);
      TrimsToNothing(r.id);
      hide Trim;
      assert Trim(r.id) in BUILTINS <==> Trim(r.id) == BUILTINS[0] || Trim(r.id) == BUILTINS[1];
      var role := Role(Trim(r.name), Trim(r.id));
      assert SelectedIds([role], selected) ==
             (if role.id in selected then [role.id] else []) + SelectedIds([role][1..], selected);
    }
  }

  lemma {:induction false} PicksExist(raw: seq<RawRole>, selected: seq<string>) returns (picks: seq<nat>)
    ensures ArePicks(raw, selected, picks) && SpellsPicks(raw, picks, SelectedIds(ParseRoles(raw), selected))
  {
    if raw == [] {
      picks := [];
    } else {
      hide IsPicked, ParseRole, Trim, ArePicks, SpellsPicks, SelectedIds;
      var rest := PicksExist(raw[1..], selected);
      var ids := SelectedIds(ParseRoles(raw[1..]), selected);
      OneRole(raw[0], selected);
      SelectedAppend(ParseRole(raw[0]), ParseRoles(raw[1..]), selected);
      picks := PickOneMore(raw, selected, rest, ids);
    }
  }

  function Later(picks: seq<nat>): (r: seq<nat>)
    ensures |r| == |picks| && forall j :: 0 <= j < |picks| ==> r[j] == picks[j] + 1
  {
    seq(|picks|, j requires 0 <= j < |picks| => picks[j] + 1)
  }

  lemma PickOneMore(raw: seq<RawRole>, selected: seq<string>, rest: seq<nat>, ids: seq<string>)
    returns (picks: seq<nat>)
    requires raw != [] && ArePicks(raw[1..], selected, rest) && SpellsPicks(raw[1..], rest, ids)
    requires IsPicked(raw[0], selected) ==> raw[0].RawRole?
    ensures ArePicks(raw, selected, picks)
    ensures SpellsPicks(raw, picks, (if IsPicked(raw[0], selected) then [Trim(raw[0].id)] else []) + ids)
  {
    hide IsPicked, Trim, ArePicks, SpellsPicks, Later;
    picks := if IsPicked(raw[0], selected) then [0] + Later(rest) else Later(rest);
    LaterPicks(raw, selected, rest, Later(rest), picks);
    LaterSpells(raw, rest, Later(rest), ids);
    if IsPicked(raw[0], selected) {
      FirstSpells(raw, Later(rest), ids);
    } else {
      assert [] + ids == ids;
    }
  }

  lemma LaterSpells(raw: seq<RawRole>, rest: seq<nat>, later: seq<nat>, ids: seq<string>)
    requires raw != [] && SpellsPicks(raw[1..], rest, ids)
    requires |later| == |rest| && forall j :: 0 <= j < |rest| ==> later[j] == rest[j] + 1
    ensures SpellsPicks(raw, later, ids)
  {
    hide Trim;
    forall j | 0 <= j < |later|
      ensures later[j] < |raw| && raw[later[j]].RawRole? && ids[j] == Trim(raw[later[j]].id)
    {
      assert raw[later[j]] == raw[1..][rest[j]];
    }
  }

  lemma FirstSpells(raw: seq<RawRole>, later: seq<nat>, ids: seq<string>)
    requires raw != [] && raw[0].RawRole? && SpellsPicks(raw, later, ids)
    ensures SpellsPicks(raw, [0] + later, [Trim(raw[0].id)] + ids)
  {
    hide Trim;
  }

  lemma PickedIsRaw(r: RawRole, selected: seq<string>)
    ensures IsPicked(r, selected) ==> r.RawRole?
  {
  }

  lemma ShiftedIn(rest: seq<nat>, later: seq<nat>, i: nat)
    requires |later| == |rest| && forall j :: 0 <= j < |rest| ==> later[j] == rest[j] + 1
    ensures i in later <==> i > 0 && i - 1 in rest
  {
    if i > 0 && i - 1 in rest {
      var j :| 0 <= j < |rest| && rest[j] == i - 1;
      assert later[j] == i;
    }
    if i in later {
      var j :| 0 <= j < |later| && later[j] == i;
      assert rest[j] == i - 1;
    }
  }

  lemma LaterPicks(raw: seq<RawRole>, selected: seq<string>, rest: seq<nat>, later: seq<nat>, picks: seq<nat>)
    requires raw != [] && ArePicks(raw[1..], selected, rest)
    requires |later| == |rest| && forall j :: 0 <= j < |rest| ==> later[j] == rest[j] + 1
    requires picks == if IsPicked(raw[0], selected) then [0] + later else later
    ensures ArePicks(raw, selected, picks)
  {
    hide IsPicked;
    forall i | 0 <= i < |raw| ensures i in picks <==> IsPicked(raw[i], selected) {
      ShiftedIn(rest, later, i);
      if i > 0 {
        assert raw[i] == raw[1..][i - 1];
      }
    }
  }

  /** How many built-ins are selected. */
  function BuiltinsIn(selected: seq<string>): nat {
    (if "everyone" in selected then 1 else 0) + (if "here" in selected then 1 else 0)
  }

  /** The built-ins that are selected, everyone first, and then one mention for each pick, in order. */
  predicate MentionsThePicks(hits: seq<string>, cfg: Config, selected: seq<string>, picks: seq<nat>) {
    var b := BuiltinsIn(selected);
    && |hits| == b + |picks|
    && ("everyone" in selected ==> hits[0] == "@everyone") && ("here" in selected ==> hits[b - 1] == "@here")
    && forall j :: 0 <= j < |picks| ==>
         picks[j] < |cfg.roles| && cfg.roles[picks[j]].RawRole?
         && hits[b + j] == "<@&" + Trim(cfg.roles[picks[j]].id) + ">"
  }

  lemma {:induction false} RoleMentionAt(ids: seq<string>)
    ensures |RoleMentions(ids)| == |ids|
    ensures forall j :: 0 <= j < |ids| ==> RoleMentions(ids)[j] == "<@&" + ids[j] + ">"
  {
    if ids != [] {
      RoleMentionAt(ids[1..]);
    }
  }

  lemma BuiltinMentionsAre(selected: seq<string>)
    ensures var hits := BuiltinMentions(selected);
            && |hits| == BuiltinsIn(selected)
            && ("everyone" in selected ==> hits[0] == "@everyone")
            && ("here" in selected ==> hits[|hits| - 1] == "@here")
  {
  }

  /** All picked entries have ids of digits. */
  predicate PicksAreDigits(cfg: Config, selected: seq<string>) {
    forall r :: r in cfg.roles && IsPicked(r, selected) ==> AllDigits(Trim(r.id))
  }

  lemma DigitPicks(cfg: Config, selected: seq<string>, picks: seq<nat>)
    requires ArePicks(cfg.roles, selected, picks)
    requires SpellsPicks(cfg.roles, picks, SelectedIds(ParseRoles(cfg.roles), selected))
    ensures DigitIds(cfg, selected) <==> PicksAreDigits(cfg, selected)
  {
    hide IsPicked, ParseRoles, SelectedIds, AllDigits, Trim;
    var ids := SelectedIds(ParseRoles(cfg.roles), selected);
    if PicksAreDigits(cfg, selected) {
      forall id | id in ids ensures AllDigits(id) {
        var j :| 0 <= j < |ids| && ids[j] == id;
        assert picks[j] in picks && cfg.roles[picks[j]] in cfg.roles;
      }
    }
    if DigitIds(cfg, selected) {
      forall r | r in cfg.roles && IsPicked(r, selected) ensures r.RawRole? && AllDigits(Trim(r.id)) {
        var i :| 0 <= i < |cfg.roles| && cfg.roles[i] == r;
        var j :| 0 <= j < |picks| && picks[j] == i;
        assert ids[j] in ids;
        PickedIsRaw(r, selected);
      }
    }
  }

  /**
   * What Discord resolves in the line, entry by entry: the selected built-ins, everyone before here, and then a
   * mention for every picked entry of the config, in config order and as often as it stands there.
   */
  lemma LineMentionsExactlyThePicks(cfg: Config, selected: seq<string>) returns (picks: seq<nat>)
    requires PicksAreDigits(cfg, selected)
    ensures ArePicks(cfg.roles, selected, picks) && MentionsThePicks(Hits(Line(cfg, selected)), cfg, selected, picks)
  {
    hide IsPicked, ParseRoles, SelectedIds, Hits, Line, Trim, AllDigits;
    picks := PicksExist(cfg.roles, selected);
    DigitPicks(cfg, selected, picks);
    LineMentionsExactlyTheSelection(cfg, selected);
    RoleMentionAt(SelectedIds(ParseRoles(cfg.roles), selected));
    BuiltinMentionsAre(selected);
  }

  /** A role is mentioned exactly when it is selected and configured, and nobody when nothing is selected. */
  lemma RoleIsMentionedExactly(cfg: Config, selected: seq<string>, id: string)
    requires PicksAreDigits(cfg, selected) && AllDigits(id)
    ensures "<@&" + id + ">" in Hits(Line(cfg, selected)) <==>
            id in selected && exists r :: r in cfg.roles && r.RawRole? && !IsBlankText(r.name) && Trim(r.id) == id
    ensures selected == [] ==> Hits(Line(cfg, selected)) == []
  {
    hide ParseRoles, SelectedIds, Hits, Line, Trim;
    var picks := LineMentionsExactlyThePicks(cfg, selected);
    var hits, m := Hits(Line(cfg, selected)), "<@&" + id + ">";
    if m in hits {
      var j :| 0 <= j < |hits| && hits[j] == m;
      assert m[0] == '<';
      assert j >= BuiltinsIn(selected);
      var i := picks[j - BuiltinsIn(selected)];
      assert i in picks && IsPicked(cfg.roles[i], selected);
      SameMention(Trim(cfg.roles[i].id), id);
      assert cfg.roles[i] in cfg.roles;
    }
    if r :| id in selected && r in cfg.roles && r.RawRole? && !IsBlankText(r.name) && Trim(r.id) == id {
      DigitsAreNoWord(id);
      TrimsToNothing(r.id);
      assert IsPicked(r, selected);
      var i :| 0 <= i < |cfg.roles| && cfg.roles[i] == r;
      var j :| 0 <= j < |picks| && picks[j] == i;
      assert hits[BuiltinsIn(selected) + j] == m;
    }
    if selected == [] {
      NothingIsPicked(cfg.roles, picks);
    }
  }

  lemma NothingIsPicked(raw: seq<RawRole>, picks: seq<nat>)
    requires ArePicks(raw, [], picks)
    ensures picks == []
  {
    HeadIsIn(picks);
    forall i | 0 <= i < |raw| ensures i !in picks {
      assert !IsPicked(raw[i], []);
    }
  }

  lemma HeadIsIn(picks: seq<nat>)
    ensures picks != [] ==> picks[0] in picks
  {
  }

  lemma SameMention(a: string, b: string)
    requires "<@&" + a + ">" == "<@&" + b + ">"
    ensures a == b
  {
    assert ("<@&" + a + ">")[3..3 + |a|] == a && ("<@&" + b + ">")[3..3 + |b|] == b;
  }

  lemma DigitsAreNoWord(id: string)
    requires AllDigits(id)
    ensures id != "" && id != "everyone" && id != "here"
  {
    assert id[0] in id;
    assert "everyone"[0] == 'e' && "here"[0] == 'h';
  }

  /** mentionedRoleIds gives the picked ids, in config order, exactly when they all consist of digits. */
  lemma MentionedIdsAreThePicks(cfg: Config, selected: seq<string>) returns (picks: seq<nat>)
    ensures ArePicks(cfg.roles, selected, picks)
    ensures SpellsPicks(cfg.roles, picks, MentionedRoleIds(cfg, selected)) <==> PicksAreDigits(cfg, selected)
  {
    hide IsPicked, ParseRoles, SelectedIds, MentionedRoleIds, Trim, AllDigits;
    picks := PicksExist(cfg.roles, selected);
    DigitPicks(cfg, selected, picks);
    MentionedIdsAreTheSelectedIds(cfg, selected);
    if SpellsPicks(cfg.roles, picks, MentionedRoleIds(cfg, selected)) {
      assert MentionedRoleIds(cfg, selected) == SelectedIds(ParseRoles(cfg.roles), selected);
    }
  }

  // ---- what the strip leaves --------------------------------------------------------------------

  /** `<@`, perhaps `&` or `!`, digits, `>`. */
  ghost predicate IsMention(m: string) {
    exists sigil, digits ::
      (sigil == "" || sigil == "&" || sigil == "!") && AllDigits(digits) && m == "<@" + sigil + digits + ">"
  }

  lemma {:induction false} DigitsLenIs(digits: string, rest: string)
    requires forall c :: c in digits ==> IsDigit(c)
    requires rest != "" ==> !IsDigit(rest[0])
    ensures DigitsLen(digits + rest) == |digits|
  {
    if digits == "" {
      assert digits + rest == rest;
    } else {
      assert digits[0] in digits && (digits + rest)[1..] == digits[1..] + rest;
      DigitsLenIs(digits[1..], rest);
    }
  }

  lemma FoundIsMention(s: string)
    requires MentionLen(s) > 0
    ensures IsMention(s[..MentionLen(s)])
  {
    var k := SigilLen(s);
    var d := DigitsLen(s[k..]);
    DigitsLenAreDigits(s[k..]);
    var digits := s[k..][..d];
    assert AllDigits(digits);
    assert s[..k + d + 1] == "<@" + s[2..k] + digits + ">";
    assert s[2..k] == "" || s[2..k] == "&" || s[2..k] == "!";
  }

  lemma MentionIsFound(m: string, rest: string)
    requires IsMention(m)
    ensures MentionLen(m + rest) == |m| > 0
  {
    var sigil, digits :| (sigil == "" || sigil == "&" || sigil == "!") && AllDigits(digits)
      && m == "<@" + sigil + digits + ">";
    var s := m + rest;
    assert digits[0] in digits && s[2 + |sigil|] == digits[0];
    assert SigilLen(s) == 2 + |sigil|;
    assert s[SigilLen(s)..] == digits + (">" + rest);
    DigitsLenIs(digits, ">" + rest);
  }

  /** The first pattern finds a mention exactly where one stands. */
  lemma MentionIsThePattern(s: string, n: nat)
    ensures MentionLen(s) == n > 0 <==> 0 < n <= |s| && IsMention(s[..n])
  {
    hide MentionLen, IsMention;
    if MentionLen(s) > 0 {
      FoundIsMention(s);
    }
    if 0 < n <= |s| && IsMention(s[..n]) {
      MentionIsFound(s[..n], s[n..]);
      assert s[..n] + s[n..] == s;
    }
  }

  /** The second one finds `@everyone` and `@here` exactly where they stand at the end of a word. */
  lemma PingIsThePattern(s: string, n: nat)
    ensures PingLen(s) == n > 0 <==>
            && ((n == 9 && "@everyone" <= s) || (n == 5 && "@here" <= s))
            && (n < |s| ==> !('a' <= s[n] <= 'z') && !('A' <= s[n] <= 'Z') && !('0' <= s[n] <= '9') && s[n] != '_')
  {
    assert "@everyone"[1] == 'e' && "@here"[1] == 'h';
  }

  /** Before the first mention everything is kept; the mention is cut out, and so on after it. */
  lemma {:induction false} MentionsAreCutOut(s: string, i: nat)
    requires i <= |s| && forall j :: 0 <= j < i ==> MentionLen(s[j..]) == 0
    ensures WithoutMentions(s) == s[..i] + WithoutMentions(s[i..])
    ensures i < |s| && MentionLen(s[i..]) > 0 ==>
              WithoutMentions(s[i..]) == WithoutMentions(s[i..][MentionLen(s[i..])..])
  {
    hide MentionLen;
    if i == 0 {
      assert s[0..] == s && s[..0] + WithoutMentions(s) == WithoutMentions(s);
    } else {
      forall j | 0 <= j < i - 1 ensures MentionLen(s[1..][j..]) == 0 {
        assert s[1..][j..] == s[j + 1..];
      }
      MentionsAreCutOut(s[1..], i - 1);
      assert s[0..] == s && s[1..][i - 1..] == s[i..] && [s[0]] + s[1..][..i - 1] == s[..i];
    }
  }

  /** And so with pings. */
  lemma {:induction false} PingsAreCutOut(s: string, i: nat)
    requires i <= |s| && forall j :: 0 <= j < i ==> PingLen(s[j..]) == 0
    ensures WithoutPings(s) == s[..i] + WithoutPings(s[i..])
    ensures i < |s| && PingLen(s[i..]) > 0 ==> WithoutPings(s[i..]) == WithoutPings(s[i..][PingLen(s[i..])..])
  {
    hide PingLen;
    if i == 0 {
      assert s[0..] == s && s[..0] + WithoutPings(s) == WithoutPings(s);
    } else {
      forall j | 0 <= j < i - 1 ensures PingLen(s[1..][j..]) == 0 {
        assert s[1..][j..] == s[j + 1..];
      }
      PingsAreCutOut(s[1..], i - 1);
      assert s[0..] == s && s[1..][i - 1..] == s[i..] && [s[0]] + s[1..][..i - 1] == s[..i];
    }
  }

  lemma {:induction false} SpacesLenIs(b: string, c: string)
    requires (forall i :: 0 <= i < |b| ==> IsSpace(b[i])) && (c != "" ==> !IsSpace(c[0]))
    ensures SpacesLen(b + c) == |b|
  {
    if b == "" {
      assert b + c == c;
    } else {
      assert (b + c)[1..] == b[1..] + c;
      SpacesLenIs(b[1..], c);
    }
  }

  /** A run of white space becomes one blank; everything else is kept. */
  lemma {:induction false} RunsBecomeOneBlank(a: string, b: string, c: string)
    requires NoSpaces(a) && (forall i :: 0 <= i < |b| ==> IsSpace(b[i])) && (c != "" ==> !IsSpace(c[0]))
    ensures Collapse(a + b + c) == a + (if b == "" then "" else " ") + Collapse(c)
  {
    if a == "" {
      assert a + b + c == b + c;
      if b != "" {
        SpacesLenIs(b, c);
        assert (b + c)[|b|..] == c;
      } else {
        assert b + c == c;
      }
    } else {
      assert a[0] in a && (a + b + c)[1..] == a[1..] + b + c;
      RunsBecomeOneBlank(a[1..], b, c);
    }
  }

  // ---- when there is a line ---------------------------------------------------------------------

  /** The line is undefined exactly when the stripped prefix is empty and nothing is selected that is configured. */
  lemma NoLineExactlyWhenNothingToSay(cfg: Config, selected: seq<string>)
    ensures ComposeMentionLine(cfg, selected).None? <==>
            && Stripped(cfg.prefix) == "" && "everyone" !in selected && "here" !in selected
            && forall r :: r in cfg.roles ==> !IsPicked(r, selected)
    ensures ComposeMentionLine(cfg, selected).Some? ==>
              Stripped(cfg.prefix) <= ComposeMentionLine(cfg, selected).value
  {
    hide IsPicked, ParseRoles, SelectedIds, Trim, Stripped;
    LineIsJoin(cfg, selected);
    var ids := SelectedIds(ParseRoles(cfg.roles), selected);
    var picks := PicksExist(cfg.roles, selected);
    RoleMentionAt(ids);
    BuiltinMentionsAre(selected);
    PartsMakeALine(Stripped(cfg.prefix), Wanted(cfg, selected));
    WantedAreParts(cfg, selected);
    NoPicksNoRoles(cfg.roles, selected, picks);
  }

  lemma NoPicksNoRoles(raw: seq<RawRole>, selected: seq<string>, picks: seq<nat>)
    requires ArePicks(raw, selected, picks)
    ensures picks == [] <==> forall r :: r in raw ==> !IsPicked(r, selected)
  {
    hide IsPicked;
    HeadIsIn(picks);
  }

  lemma WantedAreParts(cfg: Config, selected: seq<string>)
    ensures forall p :: p in Wanted(cfg, selected) ==> p != ""
  {
    hide ParseRoles, SelectedIds;
    RoleMentionsAreParts(SelectedIds(ParseRoles(cfg.roles), selected));
    BuiltinMentionsAreParts(selected);
  }

  lemma PartsMakeALine(prefix: string, wanted: seq<string>)
    ensures prefix <= Join(PrefixPart(prefix) + wanted)
    ensures (forall p :: p in wanted ==> p != "") ==>
              (Join(PrefixPart(prefix) + wanted) == "" <==> prefix == "" && wanted == [])
  {
    var parts := PrefixPart(prefix) + wanted;
    if prefix != "" {
      assert parts[0] == prefix;
    } else {
      assert parts == wanted;
      assert wanted != [] ==> wanted[0] in wanted;
    }
  }
}
