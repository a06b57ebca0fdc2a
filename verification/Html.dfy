/** Escaping and inline markdown for the HTML channels (src/core/render.ts). */
module Html {
  import opened Types
  import opened Text

  // ---- replacing --------------------------------------------------------------------------------

  /** A global replace of a fixed string. */
  function ReplaceAll(s: string, p: string, r: string): string
    requires p != ""
  {
    if s == "" then ""
    else if p <= s then r + ReplaceAll(s[|p|..], p, r)
    else [s[0]] + ReplaceAll(s[1..], p, r)
  }

  const QUOT := "&quot;"
  const APOS := "&#39;"
  const LT := "&lt;"
  const GT := "&gt;"
  const AMP := "&amp;"

  /** escapeHtml. */
  function EscapeHtml(s: string): string {
    ReplaceAll(ReplaceAll(ReplaceAll(ReplaceAll(s, "&", AMP), "<", LT), ">", GT), "\"", QUOT)
  }

  /** unescapeHtml: `&amp;` last. */
  function UnescapeHtml(s: string): string {
    ReplaceAll(ReplaceAll(ReplaceAll(ReplaceAll(ReplaceAll(s, QUOT, "\""), APOS, "'"), LT, "<"), GT, ">"), AMP, "&")
  }

  /** The preview's unescapeHtml (app/admin/preview-render.ts), which knows three entities. */
  function PreviewUnescapeHtml(s: string): string {
    ReplaceAll(ReplaceAll(ReplaceAll(s, LT, "<"), GT, ">"), AMP, "&")
  }

  // ---- escaping, character by character ---------------------------------------------------------

  const CODED := {'&', '<', '>', '"'}

  function Entity(c: char): (e: string)
    requires c in CODED
    ensures |e| > 2 && e[0] == '&'
  {
    if c == '&' then AMP else if c == '<' then LT else if c == '>' then GT else QUOT
  }

  function CodeOf(coded: set<char>, c: char): (e: string)
    requires coded <= CODED
    ensures e != ""
  {
    if c in coded then Entity(c) else [c]
  }

  /** `s` with the characters of `coded` written as entities. */
  function Encode(coded: set<char>, s: string): string
    requires coded <= CODED
  {
    if s == "" then "" else CodeOf(coded, s[0]) + Encode(coded, s[1..])
  }

  /** Replacing one character leaves the rest of an encoding alone. */
  lemma {:induction false} EncodeOne(coded: set<char>, x: char, s: string)
    requires coded <= CODED && x in CODED && x !in coded && (x == '&' ==> coded == {})
    ensures ReplaceAll(Encode(coded, s), [x], Entity(x)) == Encode(coded + {x}, s)
  {
    if s != "" {
      EncodeOne(coded, x, s[1..]);
      var c, rest := s[0], Encode(coded, s[1..]);
      if c in coded {
        NotInEntity(c, x);
        ReplaceAbsent(Entity(c), rest, [x], Entity(x));
      } else {
        assert ([c] + rest)[1..] == rest;
      }
    }
  }

  /** No entity contains another coded character. */
  lemma NotInEntity(c: char, x: char)
    requires c in CODED && x in CODED && x != '&'
    ensures x !in Entity(c)
  {
  }

  lemma {:induction false} ReplaceAbsent(a: string, b: string, p: string, r: string)
    requires p != "" && p[0] !in a
    ensures ReplaceAll(a + b, p, r) == a + ReplaceAll(b, p, r)
  {
    if a == "" {
      assert a + b == b;
    } else {
      assert a[0] in a && (a + b)[0] == a[0] && (a + b)[1..] == a[1..] + b;
      ReplaceAbsent(a[1..], b, p, r);
    }
  }

  lemma {:induction false} EncodeNothing(s: string)
    ensures Encode({}, s) == s
  {
    if s != "" {
      EncodeNothing(s[1..]);
    }
  }

  /** The chain of replacements is one pass over the characters. */
  lemma EscapeIsEncode(s: string)
    ensures EscapeHtml(s) == Encode(CODED, s)
  {
    hide ReplaceAll, Encode;
    EncodeNothing(s);
    EncodeOne({}, '&', s);
    assert {} + {'&'} == {'&'};
    EncodeOne({'&'}, '<', s);
    EncodeOne({'&'} + {'<'}, '>', s);
    EncodeOne({'&'} + {'<'} + {'>'}, '"', s);
    assert {'&'} + {'<'} + {'>'} + {'"'} == CODED;
  }

  // ---- and back ---------------------------------------------------------------------------------

  /** A pattern that neither starts here nor has its first character further on is skipped over. */
  lemma SkipOver(e: string, rest: string, p: string, r: string)
    requires p != "" && e != "" && !(p <= e + rest) && p[0] !in e[1..]
    ensures ReplaceAll(e + rest, p, r) == e + ReplaceAll(rest, p, r)
  {
    var all := e + rest;
    assert all[0] == e[0] && all[1..] == e[1..] + rest;
    ReplaceAbsent(e[1..], rest, p, r);
    assert [e[0]] + (e[1..] + ReplaceAll(rest, p, r)) == e + ReplaceAll(rest, p, r);
  }

  lemma TakeOver(p: string, rest: string, r: string)
    requires p != ""
    ensures ReplaceAll(p + rest, p, r) == r + ReplaceAll(rest, p, r)
  {
    assert p <= p + rest && (p + rest)[|p|..] == rest;
  }

  lemma OtherEntity(c: char, x: char, rest: string)
    requires c in CODED && x in CODED && c != x
    ensures !(Entity(x) <= Entity(c) + rest)
  {
    var e, f := Entity(c), Entity(x);
    assert e[1] != f[1] || e[2] != f[2];
    assert (e + rest)[1] == e[1] && (e + rest)[2] == e[2];
  }

  lemma TailOfEntity(c: char)
    requires c in CODED
    ensures '&' !in Entity(c)[1..]
  {
  }

  lemma DecodeHead(coded: set<char>, c: char, x: char, rest: string)
    requires coded <= CODED && '&' in coded && x in coded
    ensures ReplaceAll(CodeOf(coded, c) + rest, Entity(x), [x])
         == CodeOf(coded - {x}, c) + ReplaceAll(rest, Entity(x), [x])
  {
    if c == x {
      TakeOver(Entity(x), rest, [x]);
    } else if c in coded {
      OtherEntity(c, x, rest);
      TailOfEntity(c);
      hide ReplaceAll, Entity;
      SkipOver(Entity(c), rest, Entity(x), [x]);
    } else {
      assert c != '&';
      hide ReplaceAll, Entity;
      ReplaceAbsent([c], rest, Entity(x), [x]);
    }
  }

  /** While `&` itself is coded, decoding one entity touches only the character it stands for. */
  lemma {:induction false} DecodeOne(coded: set<char>, x: char, s: string)
    requires coded <= CODED && '&' in coded && x in coded
    ensures ReplaceAll(Encode(coded, s), Entity(x), [x]) == Encode(coded - {x}, s)
  {
    hide Entity, CodeOf;
    if s != "" {
      DecodeOne(coded, x, s[1..]);
      DecodeHead(coded, s[0], x, Encode(coded, s[1..]));
    }
  }

  lemma ApostropheHead(coded: set<char>, c: char, rest: string)
    requires coded <= CODED && '&' in coded
    ensures ReplaceAll(CodeOf(coded, c) + rest, APOS, "'") == CodeOf(coded, c) + ReplaceAll(rest, APOS, "'")
  {
    var e := CodeOf(coded, c);
    if c in coded {
      assert (e + rest)[1] == e[1] != APOS[1];
      TailOfEntity(c);
      hide ReplaceAll, Entity;
      SkipOver(e, rest, APOS, "'");
    } else {
      assert c != '&';
      hide ReplaceAll, Entity;
      ReplaceAbsent([c], rest, APOS, "'");
    }
  }

  /** `&#39;` is never written, so decoding it does nothing. */
  lemma {:induction false} ApostropheIsNotWritten(coded: set<char>, s: string)
    requires coded <= CODED && '&' in coded
    ensures ReplaceAll(Encode(coded, s), APOS, "'") == Encode(coded, s)
  {
    hide CodeOf;
    if s != "" {
      ApostropheIsNotWritten(coded, s[1..]);
      ApostropheHead(coded, s[0], Encode(coded, s[1..]));
    }
  }

  /** What the renderer escapes, it unescapes. */
  lemma UnescapeUndoesEscape(s: string)
    ensures UnescapeHtml(EscapeHtml(s)) == s
  {
    hide ReplaceAll, Encode;
    EscapeIsEncode(s);
    DecodeOne(CODED, '"', s);
    ApostropheIsNotWritten(CODED - {'"'}, s);
    DecodeOne(CODED - {'"'}, '<', s);
    DecodeOne(CODED - {'"'} - {'<'}, '>', s);
    DecodeOne(CODED - {'"'} - {'<'} - {'>'}, '&', s);
    assert CODED - {'"'} - {'<'} - {'>'} - {'&'} == {};
    EncodeNothing(s);
  }

  lemma {:induction false} EncodeQuotes(s: string)
    ensures |Encode({'"'}, s)| >= |s| && ('"' in s ==> |Encode({'"'}, s)| > |s|)
    ensures '"' !in s ==> Encode({'"'}, s) == s
  {
    if s != "" {
      EncodeQuotes(s[1..]);
      assert s == [s[0]] + s[1..];
    }
  }

  /** The preview undoes the renderer's escape exactly for text without a double quote. */
  lemma PreviewUndoesEscapeWithoutQuotes(s: string)
    ensures PreviewUnescapeHtml(EscapeHtml(s)) == s <==> '"' !in s
  {
    hide ReplaceAll, Encode;
    EscapeIsEncode(s);
    DecodeOne(CODED, '<', s);
    DecodeOne(CODED - {'<'}, '>', s);
    DecodeOne(CODED - {'<'} - {'>'}, '&', s);
    assert CODED - {'<'} - {'>'} - {'&'} == {'"'};
    EncodeQuotes(s);
  }
}
