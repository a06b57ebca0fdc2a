/**
 * The inline markdown patterns shared by the renderer and the preview (src/core/render.ts,
 * app/admin/preview-render.ts).
 */
module Markdown {
  import opened Types
  import opened Text

  /** Length of the longest prefix without a character that stops it. */
  function RunLen(stops: char -> bool, s: string): (n: nat)
    ensures n <= |s|
    ensures forall i :: 0 <= i < n ==> !stops(s[i])
    ensures n < |s| ==> stops(s[n])
  {
    if s == "" || stops(s[0]) then 0 else 1 + RunLen(stops, s[1..])
  }

  function Bolded(inner: string): string {
    "**" + inner + "**"
  }

  /** `\*\*([^*\n]+)\*\*` at the head of `s`. */
  function Bold(s: string): (r: Option<string>)
    ensures r.Some? ==> r.value != "" && '*' !in r.value && '\n' !in r.value && Bolded(r.value) <= s
  {
    if "**" <= s then
      var inner := s[2..][..RunLen(c => c == '*' || c == '\n', s[2..])];
      if inner != "" && Bolded(inner) <= s then Some(inner) else None
    else None
  }

  function Coded(inner: string): string {
    "`" + inner + "`"
  }

  /** `` `([^`\n]+)` `` at the head of `s`. */
  function Code(s: string): (r: Option<string>)
    ensures r.Some? ==> r.value != "" && '`' !in r.value && '\n' !in r.value && Coded(r.value) <= s
  {
    if "`" <= s then
      var inner := s[1..][..RunLen(c => c == '`' || c == '\n', s[1..])];
      if inner != "" && Coded(inner) <= s then Some(inner) else None
    else None
  }

  datatype LinkText = LinkText(text: string, url: string)

  function Linked(l: LinkText): string {
    "[" + l.text + "](" + l.url + ")"
  }

  function SchemeLen(s: string): (n: nat)
    ensures n <= |s|
  {
    if "https://" <= s then 8 else if "http://" <= s then 7 else 0
  }

  /** `\[([^\]\n]+)\]\((https?:\/\/[^)\s]+)\)` at the head of `s`. */
  function Link(s: string): (r: Option<LinkText>)
    ensures r.Some? ==> r.value.text != "" && r.value.url != "" && Linked(r.value) <= s
    ensures r.Some? ==> ']' !in r.value.text && '\n' !in r.value.text && ')' !in r.value.url
  {
    if "[" <= s then
      var text := s[1..][..RunLen(c => c == ']' || c == '\n', s[1..])];
      var rest := s[1 + |text|..];
      if text != "" && "](" <= rest then
        var url := rest[2..][..RunLen(c => c == ')' || IsSpace(c), rest[2..])];
        if 0 < SchemeLen(url) < |url| && Linked(LinkText(text, url)) <= s then Some(LinkText(text, url)) else None
      else None
    else None
  }

  // ---- the matchers are the patterns ------------------------------------------------------------

  lemma {:induction false} RunLenIs(stops: char -> bool, s: string, n: nat)
    requires n < |s| && stops(s[n]) && forall i :: 0 <= i < n ==> !stops(s[i])
    ensures RunLen(stops, s) == n
  {
    if n > 0 {
      assert !stops(s[0]);
      RunLenIs(stops, s[1..], n - 1);
    }
  }

  /** The one text a bold match can capture is the one that fits the pattern. */
  lemma BoldIsThePattern(s: string, inner: string)
    ensures Bold(s) == Some(inner) <==>
            inner != "" && '*' !in inner && '\n' !in inner && Bolded(inner) <= s
  {
    if inner != "" && '*' !in inner && '\n' !in inner && Bolded(inner) <= s {
      var n := |inner|;
      assert s[2..][..n] == inner && s[2 + n] == '*';
      forall i | 0 <= i < n ensures s[2..][i] != '*' && s[2..][i] != '\n' {
        assert inner[i] == s[2..][i];
      }
      RunLenIs(c => c == '*' || c == '\n', s[2..], n);
    }
  }

  lemma CodeIsThePattern(s: string, inner: string)
    ensures Code(s) == Some(inner) <==>
            inner != "" && '`' !in inner && '\n' !in inner && Coded(inner) <= s
  {
    if inner != "" && '`' !in inner && '\n' !in inner && Coded(inner) <= s {
      var n := |inner|;
      assert s[1..][..n] == inner && s[1 + n] == '`';
      forall i | 0 <= i < n ensures s[1..][i] != '`' && s[1..][i] != '\n' {
        assert inner[i] == s[1..][i];
      }
      RunLenIs(c => c == '`' || c == '\n', s[1..], n);
    }
  }

  predicate IsLink(l: LinkText) {
    && l.text != "" && ']' !in l.text && '\n' !in l.text
    && ')' !in l.url && (forall c :: c in l.url ==> !IsSpace(c))
    && 0 < SchemeLen(l.url) < |l.url|
  }

  lemma LinkIsThePattern(s: string, l: LinkText)
    ensures Link(s) == Some(l) <==> IsLink(l) && Linked(l) <= s
  {
    if IsLink(l) && Linked(l) <= s {
      LinkTextIs(s, l);
      LinkUrlIs(s, l);
    }
    LinkIsLink(s);
  }

  lemma LinkIsLink(s: string)
    ensures Link(s).Some? ==> IsLink(Link(s).value)
  {
  }

  lemma LinkTextIs(s: string, l: LinkText)
    requires IsLink(l) && Linked(l) <= s
    ensures var n := RunLen(c => c == ']' || c == '\n', s[1..]);
            n == |l.text| && s[1..][..n] == l.text && "[" <= s && "](" <= s[1 + n..]
  {
    hide SchemeLen;
    var n := |l.text|;
    assert s[1..][..n] == l.text && s[1 + n] == ']' && s[2 + n] == '(';
    forall i | 0 <= i < n ensures s[1..][i] != ']' && s[1..][i] != '\n' {
      assert l.text[i] == s[1..][i];
    }
    RunLenIs(c => c == ']' || c == '\n', s[1..], n);
  }

  lemma LinkUrlIs(s: string, l: LinkText)
    requires IsLink(l) && Linked(l) <= s
    ensures var rest := s[1 + |l.text|..][2..];
            var n := RunLen(c => c == ')' || IsSpace(c), rest);
            rest[..n] == l.url
  {
    hide SchemeLen, IsSpace;
    var rest, n := s[1 + |l.text|..][2..], |l.url|;
    var at := 3 + |l.text|;
    assert forall i :: 0 <= i < |rest| ==> rest[i] == s[at + i];
    assert Linked(l) == "[" + l.text + "](" + (l.url + ")");
    assert forall i :: 0 <= i < n ==> Linked(l)[at + i] == l.url[i];
    assert rest[..n] == l.url && rest[n] == ')';
    forall i | 0 <= i < n ensures rest[i] != ')' && !IsSpace(rest[i]) {
      assert l.url[i] == rest[i];
    }
    RunLenIs(c => c == ')' || IsSpace(c), rest, n);
  }
}
