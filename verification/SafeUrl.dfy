/** Which addresses a webhook may not point to (src/core/safe-url.ts). */
module SafeUrl {
  import opened Types
  import opened Text
  import opened Bits

  // ---- IPv4 -------------------------------------------------------------------------------------

  datatype Block = Block(net: nat, bits: nat)

  const FORBIDDEN_V4: seq<Block> := [
    Block(0x00000000, 8),
    Block(0x0a000000, 8),
    Block(0x64400000, 10),
    Block(0x7f000000, 8),
    Block(0xa9fe0000, 16),
    Block(0xac100000, 12),
    Block(0xc0000000, 24),
    Block(0xc0a80000, 16),
    Block(0xc6120000, 15),
    Block(0xe0000000, 4),
    Block(0xf0000000, 4)
  ]

  /** `s.split(sep)`. */
  function Split(s: string, sep: string): (parts: seq<string>)
    requires sep != ""
    ensures parts != []
  {
    if s == "" then [""]
    else if sep <= s then [""] + Split(s[|sep|..], sep)
    else
      var rest := Split(s[1..], sep);
      [[s[0]] + rest[0]] + rest[1..]
  }

  /** A part as a shift sees it: a missing part and one that is no number count as 0. */
  function Part(parts: seq<string>, i: nat): nat {
    if i < |parts| && AllDigits(parts[i]) then Value(parts[i]) else 0
  }

  /** v4ToInt. */
  function V4ToInt(ip: string): nat {
    var p := Split(ip, ".");
    Or(Or(Or(Shl(Part(p, 0), 24), Shl(Part(p, 1), 16)), Shl(Part(p, 2), 8)), Part(p, 3))
  }

  function Mask(bits: nat): nat
    requires bits <= 32
  {
    if bits == 0 then 0 else Shl(0xffffffff, 32 - bits)
  }

  predicate InBlock(n: nat, b: Block) {
    b.bits <= 32 && And(n, Mask(b.bits)) == b.net
  }

  /** The test of forbiddenV4, on the number. */
  predicate IsForbiddenV4(n: nat) {
    exists b :: b in FORBIDDEN_V4 && InBlock(n, b)
  }

  /** forbiddenV4. */
  predicate ForbiddenV4(ip: string) {
    IsForbiddenV4(V4ToInt(ip))
  }

  /** The four bytes of an address, and how it is written. */
  datatype Quad = Quad(a: nat, b: nat, c: nat, d: nat)

  predicate IsQuad(q: Quad) {
    q.a < 256 && q.b < 256 && q.c < 256 && q.d < 256
  }

  function Number(q: Quad): nat {
    q.a * 0x1000000 + q.b * 0x10000 + q.c * 0x100 + q.d
  }

  function Dotted(q: Quad): string {
    Decimal(q.a) + "." + Decimal(q.b) + "." + Decimal(q.c) + "." + Decimal(q.d)
  }

  // ---- the mask test is an interval test --------------------------------------------------------

  lemma MaskIsTopBits(bits: nat)
    requires 0 < bits <= 32
    ensures Pow2(32 - bits) <= Pow2(32) && Mask(bits) == Pow2(32) - Pow2(32 - bits)
  {
    var p := Pow2(32 - bits);
    Powers();
    MaskClears(0, 32 - bits, 32);
    var all := Pow2(32);
    assert 0xffffffff * p == all * (p - 1) + (all - p);
    RemainderIs(0xffffffff * p, all, p - 1, all - p);
  }

  predicate InInterval(n: nat, b: Block) {
    b.bits <= 32 && b.net <= n < b.net + Pow2(32 - b.bits)
  }

  lemma BlockIsInterval(n: nat, b: Block)
    requires n < Pow2(32) && 0 < b.bits <= 32 && b.net % Pow2(32 - b.bits) == 0
    ensures InBlock(n, b) <==> InInterval(n, b)
  {
    hide Pow2, And, Mask;
    var p := Pow2(32 - b.bits);
    MaskIsTopBits(b.bits);
    MaskClears(n, 32 - b.bits, 32);
    AlignedIs(n, b.net, p);
  }

  lemma AlignedIs(n: nat, net: nat, p: nat)
    requires p > 0 && net % p == 0
    ensures n - n % p == net <==> net <= n < net + p
  {
    var q := net / p;
    assert net == p * q;
    if net <= n < net + p {
      RemainderIs(n, p, q, n - net);
    }
  }

  lemma BlocksAreAligned(b: Block)
    requires b in FORBIDDEN_V4
    ensures 0 < b.bits <= 32 && b.net % Pow2(32 - b.bits) == 0
  {
    Powers();
    hide Pow2;
  }

  /** The masked test is membership in the union of the listed intervals. */
  lemma ForbiddenV4IsAUnion(n: nat)
    requires n < Pow2(32)
    ensures IsForbiddenV4(n) <==> exists b :: b in FORBIDDEN_V4 && InInterval(n, b)
  {
    forall b | b in FORBIDDEN_V4 ensures InBlock(n, b) <==> InInterval(n, b) {
      BlocksAreAligned(b);
      BlockIsInterval(n, b);
    }
  }

  /** The addresses those intervals are, byte by byte. */
  predicate IsForbiddenQuad(q: Quad) {
    || q.a == 0 || q.a == 10 || q.a == 127 || q.a >= 224
    || (q.a == 100 && 64 <= q.b < 128)
    || (q.a == 169 && q.b == 254)
    || (q.a == 172 && 16 <= q.b < 32)
    || (q.a == 192 && (q.b == 168 || (q.b == 0 && q.c == 0)))
    || (q.a == 198 && 18 <= q.b < 20)
  }

  predicate InSomeInterval(n: nat) {
    || InInterval(n, FORBIDDEN_V4[0]) || InInterval(n, FORBIDDEN_V4[1]) || InInterval(n, FORBIDDEN_V4[2])
    || InInterval(n, FORBIDDEN_V4[3]) || InInterval(n, FORBIDDEN_V4[4]) || InInterval(n, FORBIDDEN_V4[5])
    || InInterval(n, FORBIDDEN_V4[6]) || InInterval(n, FORBIDDEN_V4[7]) || InInterval(n, FORBIDDEN_V4[8])
    || InInterval(n, FORBIDDEN_V4[9]) || InInterval(n, FORBIDDEN_V4[10])
  }

  lemma SomeIntervalIs(n: nat)
    ensures InSomeInterval(n) <==> exists b :: b in FORBIDDEN_V4 && InInterval(n, b)
  {
    hide InInterval;
    assert |FORBIDDEN_V4| == 11;
    if InSomeInterval(n) {
      assert forall i :: 0 <= i < 11 ==> FORBIDDEN_V4[i] in FORBIDDEN_V4;
    }
  }

  lemma IntervalsAreQuads(q: Quad)
    requires IsQuad(q)
    ensures InSomeInterval(Number(q)) <==> IsForbiddenQuad(q)
  {
    Powers();
    hide Pow2;
  }

  lemma ForbiddenNumberIsForbiddenQuad(q: Quad)
    requires IsQuad(q)
    ensures IsForbiddenV4(Number(q)) <==> IsForbiddenQuad(q)
  {
    hide IsForbiddenV4, IsForbiddenQuad, InInterval, InSomeInterval;
    Powers();
    ForbiddenV4IsAUnion(Number(q));
    SomeIntervalIs(Number(q));
    IntervalsAreQuads(q);
  }

  // ---- reading a dotted quad --------------------------------------------------------------------

  lemma ConsFirst(a: string, rest: seq<string>)
    requires a != ""
    ensures var r := [a[1..]] + rest; [[a[0]] + r[0]] + r[1..] == [a] + rest
  {
    assert [a[0]] + a[1..] == a;
  }

  lemma {:induction false} SplitAtSep(a: string, c: char, b: string)
    requires c !in a
    ensures Split(a + [c] + b, [c]) == [a] + Split(b, [c])
  {
    var s := a + [c] + b;
    if a == "" {
      assert s[0] == c && s[1..] == b && [c] <= s;
    } else {
      assert a[0] in a && s[0] == a[0] && s[1..] == a[1..] + [c] + b;
      SplitAtSep(a[1..], c, b);
      ConsFirst(a, Split(b, [c]));
    }
  }

  lemma {:induction false} SplitNothing(a: string, c: char)
    requires c !in a
    ensures Split(a, [c]) == [a]
  {
    if a != "" {
      assert a[0] in a;
      SplitNothing(a[1..], c);
      ConsFirst(a, []);
    }
  }

  lemma DecimalIsDigits(n: nat)
    ensures AllDigits(Decimal(n)) && Value(Decimal(n)) == n && '.' !in Decimal(n) && ':' !in Decimal(n)
  {
    DecimalValue(n);
  }

  lemma SplitDotted(q: Quad)
    ensures Split(Dotted(q), ".") == [Decimal(q.a), Decimal(q.b), Decimal(q.c), Decimal(q.d)]
  {
    var a, b, c, d := Decimal(q.a), Decimal(q.b), Decimal(q.c), Decimal(q.d);
    DecimalIsDigits(q.a);
    DecimalIsDigits(q.b);
    DecimalIsDigits(q.c);
    DecimalIsDigits(q.d);
    hide Decimal, AllDigits, Split;
    assert Dotted(q) == a + "." + (b + "." + (c + "." + d));
    SplitAtSep(a, '.', b + "." + (c + "." + d));
    SplitAtSep(b, '.', c + "." + d);
    SplitAtSep(c, '.', d);
    SplitNothing(d, '.');
  }

  lemma ByteFits(x: nat, p: nat)
    requires x < 0x100 && p <= 0x1000000
    ensures x * p < 0x1_0000_0000
  {
    assert (0xff - x) * p >= 0;
    assert (0xff - x) * p == 0xff * p - x * p;
  }

  /** A byte moved up stays within 32 bits. */
  lemma ByteShifts(x: nat, k: nat, p: nat)
    requires x < 0x100 && p == Pow2(k) && p <= 0x1000000
    ensures Shl(x, k) == x * p
  {
    ByteFits(x, p);
    Powers();
    hide Pow2, Shl;
    ShlIs(x, k, x * p);
  }

  lemma ShlIs(x: nat, k: nat, y: nat)
    requires y == x * Pow2(k) && y < Pow2(32)
    ensures Shl(x, k) == y
  {
    SmallMod(y, Pow2(32));
    hide Pow2;
    assert Shl(x, k) == y % Pow2(32);
  }

  lemma SmallMod(y: nat, m: nat)
    requires y < m
    ensures y % m == y
  {
  }

  lemma SumOfBytes(q: Quad)
    requires IsQuad(q)
    ensures var a, b, c := q.a * 0x1000000, q.b * 0x10000, q.c * 0x100;
            && a % 0x1000000 == 0 && b < 0x1000000
            && (a + b) % 0x10000 == 0 && c < 0x10000
            && (a + b + c) % 0x100 == 0
  {
    var a, b, c := q.a * 0x1000000, q.b * 0x10000, q.c * 0x100;
    RemainderIs(a, 0x1000000, q.a, 0);
    RemainderIs(a + b, 0x10000, q.a * 0x100 + q.b, 0);
    RemainderIs(a + b + c, 0x100, (q.a * 0x100 + q.b) * 0x100 + q.c, 0);
  }

  lemma ShiftedBytesAdd(q: Quad)
    requires IsQuad(q)
    ensures Or(Or(Or(Shl(q.a, 24), Shl(q.b, 16)), Shl(q.c, 8)), q.d) == Number(q)
  {
    Powers();
    hide Pow2, Or, Shl;
    var a, b, c := q.a * 0x1000000, q.b * 0x10000, q.c * 0x100;
    ByteShifts(q.a, 24, 0x1000000);
    ByteShifts(q.b, 16, 0x10000);
    ByteShifts(q.c, 8, 0x100);
    SumOfBytes(q);
    OrAdds(a, b, 24);
    OrAdds(a + b, c, 16);
    OrAdds(a + b + c, q.d, 8);
  }

  /** v4ToInt reads a dotted quad as its number. */
  lemma V4ToIntReads(q: Quad)
    requires IsQuad(q)
    ensures V4ToInt(Dotted(q)) == Number(q)
  {
    SplitDotted(q);
    DecimalIsDigits(q.a);
    DecimalIsDigits(q.b);
    DecimalIsDigits(q.c);
    DecimalIsDigits(q.d);
    ShiftedBytesAdd(q);
    hide Or, Shl, Decimal, AllDigits, Split;
  }

  /** An IPv4 address is forbidden exactly when it lies in one of the listed networks. */
  lemma ForbiddenV4Decides(q: Quad)
    requires IsQuad(q)
    ensures ForbiddenV4(Dotted(q)) <==> IsForbiddenQuad(q)
  {
    hide IsForbiddenV4, IsForbiddenQuad, V4ToInt;
    V4ToIntReads(q);
    ForbiddenNumberIsForbiddenQuad(q);
  }

  // ---- IPv6: the text ---------------------------------------------------------------------------

  predicate IsHexDigit(c: char) {
    IsDigit(c) || 'a' <= c <= 'f' || 'A' <= c <= 'F'
  }

  function HexDigit(c: char): nat
    requires IsHexDigit(c)
  {
    if IsDigit(c) then c as int - '0' as int
    else if 'a' <= c <= 'f' then c as int - 'a' as int + 10
    else c as int - 'A' as int + 10
  }

  function HexLen(s: string): (n: nat)
    ensures n <= |s| && forall c :: c in s[..n] ==> IsHexDigit(c)
  {
    if s != "" && IsHexDigit(s[0]) then
      var n := 1 + HexLen(s[1..]);
      assert s[..n] == [s[0]] + s[1..][..n - 1];
      n
    else 0
  }

  function HexValue(s: string): nat
    requires forall c :: c in s ==> IsHexDigit(c)
  {
    if s == "" then 0
    else
      var last := s[|s| - 1];
      assert IsHexDigit(last);
      16 * HexValue(s[..|s| - 1]) + HexDigit(last)
  }

  predicate IsSign(c: char) {
    c == '-' || c == '+'
  }

  /** What `parseInt` skips before the digits: one sign, and then `0x` (ECMA-262, section 19.2.5). */
  function AfterSign(t: string): string {
    if t != "" && IsSign(t[0]) then t[1..] else t
  }

  function AfterHexPrefix(t: string): string {
    if |t| >= 2 && t[0] == '0' && (t[1] == 'x' || t[1] == 'X') then t[2..] else t
  }

  /** `parseInt(s, 16)`: the digits after white space, a sign and a prefix; none is NaN. */
  function ParseHex(s: string): Option<int> {
    var t := TrimStart(s);
    var digits := AfterHexPrefix(AfterSign(t));
    var n := HexLen(digits);
    if n == 0 then None
    else
      var value: int := HexValue(digits[..n]);
      Some(if t[0] == '-' then -value else value)
  }

  function HexChar(d: nat): char
    requires d < 16
  {
    if d < 10 then ('0' as int + d) as char else ('a' as int + d - 10) as char
  }

  /** `n.toString(16)` */
  function Hex(n: nat): string {
    if n < 16 then [HexChar(n)] else Hex(n / 16) + [HexChar(n % 16)]
  }

  /** The position after the last colon, or 0. */
  function AfterLastColon(s: string): (n: nat)
    ensures n <= |s| && ':' !in s[n..] && (n > 0 ==> s[n - 1] == ':')
  {
    if s == "" then 0
    else if s[|s| - 1] == ':' then |s|
    else
      var n := AfterLastColon(s[..|s| - 1]);
      assert s[n..] == s[..|s| - 1][n..] + [s[|s| - 1]];
      n
  }

  /** `\d+\.\d+\.\d+\.\d+` */
  predicate IsDotted(s: string) {
    var p := Split(s, ".");
    |p| == 4 && forall x :: x in p ==> AllDigits(x)
  }

  /** An embedded dotted quad, written as two groups. */
  function WithoutDotted(s: string): string {
    var k := AfterLastColon(s);
    if k > 0 && IsDotted(s[k..]) then
      var n := V4ToInt(s[k..]);
      s[..k] + Hex(n / 0x10000) + ":" + Hex(And(n, 0xffff))
    else s
  }

  function Zeros(n: nat): (r: seq<string>)
    ensures |r| == n
  {
    if n == 0 then [] else ["0"] + Zeros(n - 1)
  }

  function ParseAll(texts: seq<string>): (r: Option<seq<nat>>)
    ensures r.Some? ==> |r.value| == |texts| && forall g :: g in r.value ==> g <= 0xffff
  {
    if texts == [] then Some([])
    else
      match ParseHex(texts[0])
      case None => None
      case Some(g) =>
        if !(0 <= g <= 0xffff) then None
        else
          match ParseAll(texts[1..])
          case None => None
          case Some(more) => Some([g] + more)
  }

  function GroupsOrNone(half: string): seq<string> {
    if half == "" then [] else Split(half, ":")
  }

  /** The groups of a text without a dotted tail. */
  function HexGroups(s: string): (r: Option<seq<nat>>)
    ensures r.Some? ==> |r.value| == 8 && forall g :: g in r.value ==> g <= 0xffff
  {
    var halves := Split(s, "::");
    if |halves| > 2 then None
    else
      var head := GroupsOrNone(halves[0]);
      var tail := if |halves| == 2 then GroupsOrNone(halves[1]) else [];
      var fill := if |halves| == 2 then 8 - |head| - |tail| else 0;
      if fill < 0 || (|halves| == 1 && |head| != 8) then None
      else ParseAll(head + Zeros(fill) + tail)
  }

  /** v6Groups. */
  function V6Groups(ip: string): (r: Option<seq<nat>>)
    ensures r.Some? ==> |r.value| == 8 && forall g :: g in r.value ==> g <= 0xffff
  {
    HexGroups(WithoutDotted(ip))
  }

  // ---- every textual form is read back (RFC 4291, section 2.2) ----------------------------------

  /** One group as it may be written: one to four hexadecimal digits. */
  predicate IsGroupText(h: string) {
    1 <= |h| <= 4 && forall c :: c in h ==> IsHexDigit(c)
  }

  predicate AreGroups(hs: seq<string>) {
    forall h :: h in hs ==> IsGroupText(h)
  }

  function GroupValues(hs: seq<string>): seq<nat>
    requires AreGroups(hs)
  {
    if hs == [] then []
    else
      assert hs[0] in hs;
      [HexValue(hs[0])] + GroupValues(hs[1..])
  }

  function Join(parts: seq<string>): string {
    if parts == [] then ""
    else if |parts| == 1 then parts[0]
    else parts[0] + ":" + Join(parts[1..])
  }

  lemma {:induction false} HexLenIs(h: string)
    requires forall c :: c in h ==> IsHexDigit(c)
    ensures HexLen(h) == |h|
  {
    if h != "" {
      assert h[0] in h;
      HexLenIs(h[1..]);
    }
  }

  lemma {:induction false} HexLenStops(h: string, junk: string)
    requires (forall c :: c in h ==> IsHexDigit(c)) && (junk != "" ==> !IsHexDigit(junk[0]))
    ensures HexLen(h + junk) == |h|
  {
    if h == "" {
      assert h + junk == junk;
    } else {
      assert h[0] in h && (h + junk)[0] == h[0] && (h + junk)[1..] == h[1..] + junk;
      HexLenStops(h[1..], junk);
    }
  }

  lemma {:induction false} TrimStartSkips(w: string, t: string)
    requires (forall c :: c in w ==> IsSpace(c)) && (t != "" ==> !IsSpace(t[0]))
    ensures TrimStart(w + t) == t
  {
    if w == "" {
      assert w + t == t;
    } else {
      assert w[0] in w && (w + t)[0] == w[0] && (w + t)[1..] == w[1..] + t;
      TrimStartSkips(w[1..], t);
    }
  }

  /** The hexadecimal digits in either case, each worth its place. */
  lemma HexDigitsAre(c: char, d: nat)
    requires d < 16
    ensures (IsHexDigit(c) && HexDigit(c) == d) <==> c == "0123456789abcdef"[d] || c == "0123456789ABCDEF"[d]
  {
    assert IsHexDigit(c) && HexDigit(c) == d ==> c in ["0123456789abcdef"[d], "0123456789ABCDEF"[d]];
  }

  /** The digits `h` with what may stand in front of them: nothing, or `0x`. */
  predicate IsPrefixed(prefix: string, h: string, junk: string) {
    || prefix == "0x" || prefix == "0X"
    || (prefix == "" && h != "" && (h == "0" && junk != "" ==> junk[0] != 'x' && junk[0] != 'X'))
  }

  lemma PrefixIsSkipped(prefix: string, h: string, junk: string)
    requires IsPrefixed(prefix, h, junk) && forall c :: c in h ==> IsHexDigit(c)
    ensures AfterHexPrefix(prefix + h + junk) == h + junk
  {
    var t := prefix + h + junk;
    if prefix == "" {
      assert t == h + junk && t[0] == h[0];
      if |h| >= 2 {
        assert t[1] == h[1] && h[1] in h;
      } else if junk != "" {
        assert t[1] == junk[0];
      }
    } else {
      assert t[..2] == prefix && t[2..] == h + junk && t[0] == prefix[0] && t[1] == prefix[1];
    }
  }

  /** `parseInt(s, 16)` reads the digits after white space, a sign and a prefix, up to the first other character. */
  lemma ParseIntReads(w: string, sign: string, prefix: string, h: string, junk: string)
    requires (forall c :: c in w ==> IsSpace(c)) && sign in {"", "+", "-"} && IsPrefixed(prefix, h, junk)
    requires (forall c :: c in h ==> IsHexDigit(c)) && (junk != "" ==> !IsHexDigit(junk[0]))
    ensures ParseHex(w + sign + prefix + h + junk) ==
            if h == "" then None else Some((if sign == "-" then -1 else 1) * HexValue(h))
  {
    hide HexValue, HexLen, TrimStart, AfterHexPrefix, IsPrefixed, IsSpace;
    var body := prefix + h + junk;
    BodyStarts(prefix, h, junk);
    assert w + sign + prefix + h + junk == w + (sign + body);
    SignStarts(sign, body);
    TrimStartSkips(w, sign + body);
    PrefixIsSkipped(prefix, h, junk);
    HexLenStops(h, junk);
    assert (h + junk)[..|h|] == h;
  }

  lemma BodyStarts(prefix: string, h: string, junk: string)
    requires IsPrefixed(prefix, h, junk) && forall c :: c in h ==> IsHexDigit(c)
    ensures var t := prefix + h + junk; t != "" && IsHexDigit(t[0])
  {
    if prefix == "" {
      assert (prefix + h + junk)[0] == h[0] && h[0] in h;
    } else {
      assert (prefix + h + junk)[0] == prefix[0] == '0';
    }
  }

  lemma SignStarts(sign: string, body: string)
    requires sign in {"", "+", "-"} && body != "" && IsHexDigit(body[0])
    ensures var t := sign + body; !IsSpace(t[0]) && AfterSign(t) == body && (t[0] == '-' <==> sign == "-")
  {
    var t := sign + body;
    if sign == "" {
      assert t == body;
    } else {
      assert t[0] == sign[0] && t[1..] == body;
    }
  }

  function Pow16(n: nat): nat {
    if n == 0 then 1 else 16 * Pow16(n - 1)
  }

  lemma {:induction false} HexValueFits(h: string)
    requires forall c :: c in h ==> IsHexDigit(c)
    ensures HexValue(h) < Pow16(|h|)
  {
    if h != "" {
      HexValueFits(h[..|h| - 1]);
      assert h[|h| - 1] in h;
    }
  }

  /** A group has nothing in front of its digits. */
  lemma NothingToSkip(h: string)
    requires IsGroupText(h)
    ensures TrimStart(h) == h && AfterSign(h) == h && AfterHexPrefix(h) == h && h[0] != '-'
  {
    assert h[0] in h && (|h| > 1 ==> h[1] in h);
  }

  lemma GroupParses(h: string)
    requires IsGroupText(h)
    ensures ParseHex(h) == Some(HexValue(h)) && HexValue(h) <= 0xffff
  {
    hide HexValue, HexLen, TrimStart, AfterSign, AfterHexPrefix;
    NothingToSkip(h);
    HexLenIs(h);
    HexValueFits(h);
    assert h[..|h|] == h;
    assert Pow16(1) == 16 && Pow16(2) == 256 && Pow16(3) == 4096 && Pow16(4) == 65536;
  }

  lemma {:induction false} GroupsParse(hs: seq<string>)
    requires AreGroups(hs)
    ensures ParseAll(hs) == Some(GroupValues(hs))
  {
    if hs != [] {
      assert hs[0] in hs;
      GroupParses(hs[0]);
      GroupsParse(hs[1..]);
    }
  }

  /** Text without "::", which neither starts nor ends with a colon. */
  predicate IsCompact(s: string) {
    && (s != "" ==> s[0] != ':' && s[|s| - 1] != ':')
    && forall i :: 0 <= i < |s| - 1 ==> !(s[i] == ':' && s[i + 1] == ':')
  }

  lemma {:induction false} JoinIsCompact(hs: seq<string>)
    requires AreGroups(hs)
    ensures IsCompact(Join(hs)) && (hs != [] ==> Join(hs) != "")
  {
    if hs != [] {
      var h := hs[0];
      assert h in hs && h[0] in h && h[|h| - 1] in h;
      NoColon(h);
      forall i | 0 <= i < |h| ensures h[i] != ':' {
        assert h[i] in h;
      }
      if |hs| > 1 {
        assert AreGroups(hs[1..]) && hs[1] in hs;
        JoinIsCompact(hs[1..]);
        CompactCons(h, Join(hs[1..]));
      }
    }
  }

  lemma CompactCons(h: string, t: string)
    requires h != "" && ':' !in h && t != "" && IsCompact(t)
    ensures IsCompact(h + ":" + t)
  {
    var s := h + ":" + t;
    forall i | 0 <= i < |s| - 1 ensures !(s[i] == ':' && s[i + 1] == ':') {
      if i < |h| {
        assert s[i] == h[i] && h[i] in h;
      } else if i > |h| {
        assert s[i] == t[i - |h| - 1] && s[i + 1] == t[i - |h|];
      }
    }
    assert s[0] == h[0] && h[0] in h;
  }

  /** "::" splits once, wherever it stands between compact texts. */
  lemma {:induction false} SplitDouble(a: string, b: string)
    requires forall i :: 0 <= i < |a| - 1 ==> !(a[i] == ':' && a[i + 1] == ':')
    requires a != "" ==> a[|a| - 1] != ':'
    ensures Split(a + "::" + b, "::") == [a] + Split(b, "::")
  {
    var s := a + "::" + b;
    if a == "" {
      assert "::" <= s && s[2..] == b;
    } else {
      assert s[0] == a[0] && s[1..] == a[1..] + "::" + b;
      assert !("::" <= s) by {
        assert |a| > 1 ==> s[1] == a[1];
      }
      forall i | 0 <= i < |a[1..]| - 1 ensures !(a[1..][i] == ':' && a[1..][i + 1] == ':') {
        assert a[1..][i] == a[i + 1] && a[1..][i + 1] == a[i + 2];
      }
      SplitDouble(a[1..], b);
      ConsFirst(a, Split(b, "::"));
    }
  }

  lemma {:induction false} SplitNoDouble(a: string)
    requires forall i :: 0 <= i < |a| - 1 ==> !(a[i] == ':' && a[i + 1] == ':')
    ensures Split(a, "::") == [a]
  {
    if a != "" {
      assert !("::" <= a) by {
        assert |a| > 1 ==> !(a[0] == ':' && a[1] == ':');
      }
      forall i | 0 <= i < |a[1..]| - 1 ensures !(a[1..][i] == ':' && a[1..][i + 1] == ':') {
        assert a[1..][i] == a[i + 1] && a[1..][i + 1] == a[i + 2];
      }
      SplitNoDouble(a[1..]);
      ConsFirst(a, []);
    }
  }

  lemma {:induction false} SplitJoin(hs: seq<string>)
    requires AreGroups(hs)
    ensures GroupsOrNone(Join(hs)) == hs
  {
    if hs != [] {
      var h := hs[0];
      assert h in hs;
      NoColon(h);
      if |hs| == 1 {
        SplitNothing(h, ':');
      } else {
        assert hs[1] in hs;
        SplitJoin(hs[1..]);
        JoinIsCompact(hs[1..]);
        SplitAtSep(h, ':', Join(hs[1..]));
      }
    }
  }

  lemma NoColon(h: string)
    requires IsGroupText(h)
    ensures ':' !in h && '.' !in h
  {
  }

  lemma {:induction false} JoinHasNoDot(hs: seq<string>)
    requires AreGroups(hs)
    ensures '.' !in Join(hs)
  {
    if hs != [] {
      assert hs[0] in hs;
      NoColon(hs[0]);
      JoinHasNoDot(hs[1..]);
    }
  }

  lemma NoDotNoQuad(s: string)
    requires '.' !in s
    ensures WithoutDotted(s) == s
  {
    var k := AfterLastColon(s);
    assert forall c :: c in s[k..] ==> c in s;
    SplitNothing(s[k..], '.');
  }

  /** All eight groups written out. */
  lemma FullFormIsRead(hs: seq<string>)
    requires |hs| == 8 && AreGroups(hs)
    ensures V6Groups(Join(hs)) == Some(GroupValues(hs))
  {
    var s := Join(hs);
    JoinHasNoDot(hs);
    NoDotNoQuad(s);
    JoinIsCompact(hs);
    SplitNoDouble(s);
    SplitJoin(hs);
    GroupsParse(hs);
    hide WithoutDotted, Split, Join, ParseAll, IsCompact, GroupsOrNone;
    assert hs + Zeros(0) + [] == hs;
  }

  /** Two runs of groups with the zeros between them elided. */
  function Elided(head: seq<string>, tail: seq<string>): string {
    Join(head) + "::" + Join(tail)
  }

  predicate AreZero(hs: seq<string>)
    requires AreGroups(hs)
  {
    forall h :: h in hs ==> HexValue(h) == 0
  }

  lemma ZeroParses()
    ensures ParseHex("0") == Some(0)
  {
    hide TrimStart, AfterSign, AfterHexPrefix;
    NothingToSkip("0");
    HexLenIs("0");
    assert "0"[..1] == "0" && "0"[..0] == "";
    assert HexValue("") == 0;
  }

  lemma {:induction false} ZerosParse(zs: seq<string>, rest: seq<string>)
    requires AreGroups(zs) && AreZero(zs) && AreGroups(rest)
    ensures AreGroups(zs + rest)
    ensures ParseAll(Zeros(|zs|) + rest) == Some(GroupValues(zs + rest))
  {
    hide ParseHex, HexValue, IsHexDigit;
    if zs == [] {
      assert zs + rest == rest && Zeros(0) + rest == rest;
      GroupsParse(rest);
    } else {
      assert zs[0] in zs;
      ZerosParse(zs[1..], rest);
      ZeroParses();
      var texts := Zeros(|zs|) + rest;
      assert texts[0] == "0" && texts[1..] == Zeros(|zs| - 1) + rest;
      assert (zs + rest)[0] == zs[0] && (zs + rest)[1..] == zs[1..] + rest;
    }
  }

  lemma {:induction false} HeadZerosParse(head: seq<string>, zs: seq<string>, rest: seq<string>)
    requires AreGroups(head) && AreGroups(zs) && AreZero(zs) && AreGroups(rest)
    ensures AreGroups(head + zs + rest)
    ensures ParseAll(head + Zeros(|zs|) + rest) == Some(GroupValues(head + zs + rest))
  {
    hide HexValue, IsGroupText, ParseHex, Zeros;
    if head == [] {
      ZerosParse(zs, rest);
      assert head + zs + rest == zs + rest && head + Zeros(|zs|) + rest == Zeros(|zs|) + rest;
    } else {
      assert head[0] in head;
      GroupParses(head[0]);
      HeadZerosParse(head[1..], zs, rest);
      assert (head + zs + rest)[1..] == head[1..] + zs + rest;
      assert (head + Zeros(|zs|) + rest)[1..] == head[1..] + Zeros(|zs|) + rest;
    }
  }

  lemma ElidedHalves(head: seq<string>, tail: seq<string>)
    requires AreGroups(head) && AreGroups(tail)
    ensures WithoutDotted(Elided(head, tail)) == Elided(head, tail)
    ensures Split(Elided(head, tail), "::") == [Join(head), Join(tail)]
    ensures GroupsOrNone(Join(head)) == head && GroupsOrNone(Join(tail)) == tail
  {
    JoinHasNoDot(head);
    JoinHasNoDot(tail);
    JoinIsCompact(head);
    JoinIsCompact(tail);
    NoDotNoQuad(Elided(head, tail));
    SplitDouble(Join(head), Join(tail));
    SplitNoDouble(Join(tail));
    SplitJoin(head);
    SplitJoin(tail);
  }

  lemma TwoHalves(s: string, head: seq<string>, tail: seq<string>, a: string, b: string)
    requires Split(s, "::") == [a, b] && GroupsOrNone(a) == head && GroupsOrNone(b) == tail
    requires |head| + |tail| <= 8
    ensures HexGroups(s) == ParseAll(head + Zeros(8 - |head| - |tail|) + tail)
  {
    hide Split, GroupsOrNone, ParseAll, Zeros;
  }

  /** Any run of zero groups left out. */
  lemma ElidedFormIsRead(head: seq<string>, zs: seq<string>, tail: seq<string>)
    requires |head| + |zs| + |tail| == 8
    requires AreGroups(head) && AreGroups(zs) && AreZero(zs) && AreGroups(tail)
    ensures AreGroups(head + zs + tail)
    ensures V6Groups(Elided(head, tail)) == Some(GroupValues(head + zs + tail))
  {
    hide WithoutDotted, Split, Join, ParseAll, Elided, GroupsOrNone, Zeros, HexGroups, AreZero, AreGroups, GroupValues;
    ElidedHalves(head, tail);
    HeadZerosParse(head, zs, tail);
    TwoHalves(Elided(head, tail), head, tail, Join(head), Join(tail));
  }

  // ---- a dotted tail ----------------------------------------------------------------------------

  lemma {:induction false} HexIsAGroup(n: nat, k: nat)
    requires n < Pow16(k) && 1 <= k <= 4
    ensures 1 <= |Hex(n)| <= k && (forall c :: c in Hex(n) ==> IsHexDigit(c)) && HexValue(Hex(n)) == n
  {
    if n >= 16 {
      HexIsAGroup(n / 16, k - 1);
      var h := Hex(n);
      assert h[..|h| - 1] == Hex(n / 16);
      HexCharIs(n % 16);
    } else {
      HexCharIs(n);
      assert Hex(n)[..0] == "";
    }
  }

  lemma HexCharIs(d: nat)
    requires d < 16
    ensures IsHexDigit(HexChar(d)) && HexDigit(HexChar(d)) == d
  {
  }

  lemma {:induction false} LastColonIs(p: string, t: string)
    requires ':' !in t && p != "" && p[|p| - 1] == ':'
    ensures AfterLastColon(p + t) == |p|
    decreases |t|
  {
    var s := p + t;
    if t == "" {
      assert s == p;
    } else {
      assert s[|s| - 1] == t[|t| - 1] && t[|t| - 1] in t;
      assert s[..|s| - 1] == p + t[..|t| - 1];
      LastColonIs(p, t[..|t| - 1]);
    }
  }

  /** The two groups a dotted quad stands for. */
  function QuadGroups(q: Quad): seq<string> {
    [Hex(q.a * 0x100 + q.b), Hex(q.c * 0x100 + q.d)]
  }

  lemma DottedHasNoColon(q: Quad)
    ensures ':' !in Dotted(q) && IsDotted(Dotted(q))
  {
    SplitDotted(q);
    DecimalIsDigits(q.a);
    DecimalIsDigits(q.b);
    DecimalIsDigits(q.c);
    DecimalIsDigits(q.d);
    hide Decimal, AllDigits;
  }

  lemma NumberHalves(q: Quad)
    requires IsQuad(q)
    ensures Number(q) / 0x10000 == q.a * 0x100 + q.b && And(Number(q), 0xffff) == q.c * 0x100 + q.d
  {
    Powers();
    LowBits(Number(q), 16);
    hide And, Pow2;
    RemainderIs(Number(q), 0x10000, q.a * 0x100 + q.b, q.c * 0x100 + q.d);
  }

  /** A dotted tail is replaced by its two groups. */
  lemma DottedTailIsReplaced(p: string, q: Quad)
    requires IsQuad(q) && p != "" && p[|p| - 1] == ':'
    ensures WithoutDotted(p + Dotted(q)) == p + Join(QuadGroups(q))
  {
    DottedHasNoColon(q);
    LastColonIs(p, Dotted(q));
    V4ToIntReads(q);
    NumberHalves(q);
    hide Dotted, IsDotted, V4ToInt, AfterLastColon, Number, And, Hex;
    assert (p + Dotted(q))[|p|..] == Dotted(q) && (p + Dotted(q))[..|p|] == p;
    var g := QuadGroups(q);
    assert g[1..] == [g[1]];
    assert Join(g) == g[0] + ":" + g[1];
    assert p + g[0] + ":" + g[1] == p + (g[0] + ":" + g[1]);
  }

  lemma QuadGroupsAreGroups(q: Quad)
    requires IsQuad(q)
    ensures AreGroups(QuadGroups(q)) && GroupValues(QuadGroups(q)) == [q.a * 0x100 + q.b, q.c * 0x100 + q.d]
  {
    assert Pow16(1) == 16 && Pow16(2) == 256 && Pow16(3) == 4096 && Pow16(4) == 65536;
    HexIsAGroup(q.a * 0x100 + q.b, 4);
    HexIsAGroup(q.c * 0x100 + q.d, 4);
    hide Hex, HexValue, IsHexDigit, IsDigit;
    TwoValues(Hex(q.a * 0x100 + q.b), Hex(q.c * 0x100 + q.d));
  }

  lemma TwoValues(g: string, h: string)
    requires IsGroupText(g) && IsGroupText(h)
    ensures AreGroups([g, h]) && GroupValues([g, h]) == [HexValue(g), HexValue(h)]
  {
    hide HexValue, IsHexDigit;
    assert [g, h][1..] == [h] && [h][1..] == [];
    assert AreGroups([h]) && GroupValues([h]) == [HexValue(h)];
  }

  lemma {:induction false} JoinSplits(a: seq<string>, b: seq<string>)
    requires a != [] && b != []
    ensures Join(a + b) == Join(a) + ":" + Join(b)
  {
    if |a| == 1 {
      assert a + b == [a[0]] + b && (a + b)[1..] == b;
    } else {
      assert (a + b)[0] == a[0] && (a + b)[1..] == a[1..] + b;
      JoinSplits(a[1..], b);
      assert a[0] + ":" + (Join(a[1..]) + ":" + Join(b)) == a[0] + ":" + Join(a[1..]) + ":" + Join(b);
    }
  }

  /** Rewriting is all a dotted tail needs: the rest of v6Groups sees only the rewritten text. */
  lemma SameGroups(s: string, t: string)
    requires WithoutDotted(s) == t && WithoutDotted(t) == t
    ensures V6Groups(s) == V6Groups(t)
  {
    hide WithoutDotted, HexGroups;
  }

  /** Six groups and a dotted quad. */
  lemma DottedFormIsRead(hs: seq<string>, q: Quad)
    requires |hs| == 6 && AreGroups(hs) && IsQuad(q)
    ensures AreGroups(hs + QuadGroups(q))
    ensures V6Groups(Join(hs) + ":" + Dotted(q)) == Some(GroupValues(hs + QuadGroups(q)))
  {
    var all := hs + QuadGroups(q);
    QuadGroupsAreGroups(q);
    assert AreGroups(all);
    var p := Join(hs) + ":";
    DottedTailIsReplaced(p, q);
    JoinSplits(hs, QuadGroups(q));
    JoinHasNoDot(all);
    NoDotNoQuad(Join(all));
    SameGroups(p + Dotted(q), Join(all));
    FullFormIsRead(all);
  }

  /** Groups with a zero run left out, and a dotted quad at the end. */
  lemma ElidedDottedFormIsRead(head: seq<string>, zs: seq<string>, tail: seq<string>, q: Quad)
    requires |head| + |zs| + |tail| == 6 && IsQuad(q)
    requires AreGroups(head) && AreGroups(zs) && AreZero(zs) && AreGroups(tail)
    ensures AreGroups(head + zs + tail + QuadGroups(q))
    ensures V6Groups(BeforeQuad(head, tail) + Dotted(q)) == Some(GroupValues(head + zs + tail + QuadGroups(q)))
  {
    var g := QuadGroups(q);
    QuadGroupsAreGroups(q);
    assert |g| == 2;
    hide Join, Dotted, QuadGroups, WithoutDotted, V6Groups, HexValue, IsGroupText, GroupValues, IsQuad, Elided;
    hide BeforeQuad;
    BeforeQuadEnds(head, tail);
    DottedTailIsReplaced(BeforeQuad(head, tail), q);
    ElidedWithQuad(head, tail, g);
    ElidedHalves(head, tail + g);
    ElidedFormIsRead(head, zs, tail + g);
    assert head + zs + (tail + g) == head + zs + tail + g;
    SameGroups(BeforeQuad(head, tail) + Dotted(q), Elided(head, tail + g));
  }

  /** What stands before the quad in an elided form. */
  function BeforeQuad(head: seq<string>, tail: seq<string>): string {
    Join(head) + "::" + (if tail == [] then "" else Join(tail) + ":")
  }

  lemma BeforeQuadEnds(head: seq<string>, tail: seq<string>)
    ensures var p := BeforeQuad(head, tail); p != "" && p[|p| - 1] == ':'
  {
    hide Join;
  }

  lemma ElidedWithQuad(head: seq<string>, tail: seq<string>, g: seq<string>)
    requires g != []
    ensures Elided(head, tail + g) == BeforeQuad(head, tail) + Join(g)
  {
    if tail == [] {
      assert tail + g == g;
    } else {
      JoinSplits(tail, g);
    }
    hide Join;
    assert Join(head) + "::" + (Join(tail) + ":" + Join(g)) == Join(head) + "::" + (Join(tail) + ":") + Join(g);
  }

  // ---- IPv6: the decision -----------------------------------------------------------------------

  predicate AreAddress(g: seq<nat>) {
    |g| == 8 && forall x :: x in g ==> x <= 0xffff
  }

  predicate IsZero(g: seq<nat>, from: nat, to: nat)
    requires from <= to <= |g|
  {
    forall i :: from <= i < to ==> g[i] == 0
  }

  /** `${hi >> 8}.${hi & 0xff}.${lo >> 8}.${lo & 0xff}` */
  function QuadText(hi: nat, lo: nat): string {
    Dotted(Quad(hi / 0x100, And(hi, 0xff), lo / 0x100, And(lo, 0xff)))
  }

  /** forbiddenV6, on the groups. */
  predicate ForbiddenGroups(g: seq<nat>)
    requires AreAddress(g)
  {
    if IsZero(g, 0, 8) then true
    else if IsZero(g, 0, 7) && g[7] == 1 then true
    else if IsZero(g, 0, 5) && g[5] == 0xffff then ForbiddenV4(QuadText(g[6], g[7]))
    else if IsZero(g, 0, 6) && !(g[6] == 0 && g[7] == 0) then ForbiddenV4(QuadText(g[6], g[7]))
    else if g[0] == 0x64 && g[1] == 0xff9b && IsZero(g, 2, 6) then ForbiddenV4(QuadText(g[6], g[7]))
    else if g[0] == 0x64 && g[1] == 0xff9b && g[2] == 1 then true
    else if g[0] == 0x2002 then ForbiddenV4(QuadText(g[1], g[2]))
    else if And(g[0], 0xffc0) == 0xfec0 then true
    else if And(g[0], 0xfe00) == 0xfc00 then true
    else if And(g[0], 0xffc0) == 0xfe80 then true
    else And(g[0], 0xff00) == 0xff00
  }

  /** forbiddenV6: what cannot be read is forbidden. */
  predicate ForbiddenV6(ip: string) {
    match V6Groups(ip)
    case None => true
    case Some(g) => ForbiddenGroups(g)
  }

  /** The IPv4 address a group pair holds. */
  function Bytes(hi: nat, lo: nat): Quad {
    Quad(hi / 0x100, hi % 0x100, lo / 0x100, lo % 0x100)
  }

  /** The IPv4 address inside: mapped, compatible (but not :: and ::1), NAT64, 6to4. */
  function Embedded(g: seq<nat>): Option<Quad>
    requires AreAddress(g)
  {
    if IsZero(g, 0, 5) && (g[5] == 0xffff || (g[5] == 0 && (g[6] > 0 || g[7] > 1))) then Some(Bytes(g[6], g[7]))
    else if g[0] == 0x64 && g[1] == 0xff9b && IsZero(g, 2, 6) then Some(Bytes(g[6], g[7]))
    else if g[0] == 0x2002 then Some(Bytes(g[1], g[2]))
    else None
  }

  /** Unspecified, loopback, local NAT64, unique local, link and site local, multicast. */
  predicate IsPrivateGroups(g: seq<nat>)
    requires AreAddress(g)
  {
    || (IsZero(g, 0, 7) && g[7] <= 1)
    || (g[0] == 0x64 && g[1] == 0xff9b && g[2] == 1)
    || 0xfc00 <= g[0] <= 0xfdff
    || 0xfe80 <= g[0] <= 0xfeff
    || 0xff00 <= g[0]
  }

  lemma QuadTextIs(hi: nat, lo: nat)
    requires hi <= 0xffff && lo <= 0xffff
    ensures QuadText(hi, lo) == Dotted(Bytes(hi, lo)) && IsQuad(Bytes(hi, lo))
  {
    Powers();
    LowBits(hi, 8);
    LowBits(lo, 8);
    hide And, Pow2, Dotted;
  }

  lemma PairDecides(hi: nat, lo: nat)
    requires hi <= 0xffff && lo <= 0xffff
    ensures ForbiddenV4(QuadText(hi, lo)) <==> IsForbiddenQuad(Bytes(hi, lo))
  {
    hide ForbiddenV4, QuadText, IsForbiddenQuad, Dotted;
    QuadTextIs(hi, lo);
    ForbiddenV4Decides(Bytes(hi, lo));
  }

  lemma TopBitsAreARange(x: nat, k: nat, net: nat)
    requires x < Pow2(16) && k <= 16 && net % Pow2(k) == 0
    ensures Pow2(k) <= Pow2(16) && (And(x, Pow2(16) - Pow2(k)) == net <==> net <= x < net + Pow2(k))
  {
    hide Pow2, And;
    MaskClears(x, k, 16);
    AlignedIs(x, net, Pow2(k));
  }

  /** The four prefix tests are ranges of the first group. */
  lemma PrefixTests(x: nat)
    requires x <= 0xffff
    ensures And(x, 0xffc0) == 0xfec0 <==> 0xfec0 <= x <= 0xfeff
    ensures And(x, 0xfe00) == 0xfc00 <==> 0xfc00 <= x <= 0xfdff
    ensures And(x, 0xffc0) == 0xfe80 <==> 0xfe80 <= x <= 0xfebf
    ensures And(x, 0xff00) == 0xff00 <==> 0xff00 <= x
  {
    Powers();
    hide And, Pow2;
    TopBitsAreARange(x, 6, 0xfec0);
    TopBitsAreARange(x, 9, 0xfc00);
    TopBitsAreARange(x, 6, 0xfe80);
    TopBitsAreARange(x, 8, 0xff00);
  }

  lemma SmallGroups(g: seq<nat>)
    requires AreAddress(g)
    ensures |g| == 8 && g[0] <= 0xffff && g[1] <= 0xffff && g[2] <= 0xffff && g[6] <= 0xffff && g[7] <= 0xffff
  {
    assert g[0] in g && g[1] in g && g[2] in g && g[6] in g && g[7] in g;
  }

  lemma ZeroChain(g: seq<nat>)
    requires AreAddress(g)
    ensures IsZero(g, 0, 8) <==> IsZero(g, 0, 7) && g[7] == 0
    ensures IsZero(g, 0, 7) <==> IsZero(g, 0, 6) && g[6] == 0
    ensures IsZero(g, 0, 6) <==> IsZero(g, 0, 5) && g[5] == 0
    ensures IsZero(g, 0, 5) ==> g[0] == 0
  {
  }

  /** The decision: as the embedded IPv4 address, when there is one, and by range otherwise. */
  lemma ForbiddenGroupsDecides(g: seq<nat>)
    requires AreAddress(g)
    ensures ForbiddenGroups(g) <==>
            match Embedded(g) { case Some(q) => IsForbiddenQuad(q) case None => IsPrivateGroups(g) }
  {
    hide And, ForbiddenV4, QuadText, IsForbiddenQuad, Bytes;
    SmallGroups(g);
    hide AreAddress;
    PairDecides(g[6], g[7]);
    PairDecides(g[1], g[2]);
    PrefixTests(g[0]);
    ZeroChain(g);
    hide IsZero;
  }

  // ---- the same address in either family --------------------------------------------------------

  lemma Pairs(q: Quad)
    requires IsQuad(q)
    ensures Bytes(q.a * 0x100 + q.b, q.c * 0x100 + q.d) == q
  {
  }

  lemma {:induction false} ValuesAppend(a: seq<string>, b: seq<string>)
    requires AreGroups(a) && AreGroups(b)
    ensures AreGroups(a + b) && GroupValues(a + b) == GroupValues(a) + GroupValues(b)
  {
    hide IsGroupText, HexValue;
    if a == [] {
      assert a + b == b;
    } else {
      assert a[0] in a;
      assert (a + b)[0] == a[0] && (a + b)[1..] == a[1..] + b;
      ValuesAppend(a[1..], b);
    }
  }

  /** The groups of an address written with a quad at its end. */
  lemma QuadFormGroups(head: seq<string>, zs: seq<string>, tail: seq<string>, q: Quad)
    requires |head| + |zs| + |tail| == 6 && IsQuad(q)
    requires AreGroups(head) && AreGroups(zs) && AreZero(zs) && AreGroups(tail)
    ensures V6Groups(BeforeQuad(head, tail) + Dotted(q))
         == Some(GroupValues(head) + GroupValues(zs) + GroupValues(tail) + [q.a * 0x100 + q.b, q.c * 0x100 + q.d])
  {
    hide V6Groups, BeforeQuad, Dotted, GroupValues, AreGroups, IsQuad, QuadGroups, AreZero;
    ElidedDottedFormIsRead(head, zs, tail, q);
    QuadGroupsAreGroups(q);
    ValuesAppend(head, zs);
    ValuesAppend(head + zs, tail);
    ValuesAppend(head + zs + tail, QuadGroups(q));
  }

  lemma {:induction false} ZeroTexts(n: nat)
    ensures AreGroups(Zeros(n)) && AreZero(Zeros(n)) && |GroupValues(Zeros(n))| == n
    ensures forall i :: 0 <= i < n ==> GroupValues(Zeros(n))[i] == 0
  {
    if n > 0 {
      ZeroTexts(n - 1);
      ZeroParses();
      HexLenIs("0");
      assert "0"[..1] == "0";
    }
  }

  lemma HexOf2(a: char, b: char)
    requires IsHexDigit(a) && IsHexDigit(b)
    ensures HexValue([a, b]) == HexDigit(a) * 0x10 + HexDigit(b)
  {
    assert [a, b][..1] == [a] && [a][..0] == "";
    assert HexValue([a]) == HexDigit(a);
  }

  lemma HexOf4(a: char, b: char, c: char, d: char)
    requires IsHexDigit(a) && IsHexDigit(b) && IsHexDigit(c) && IsHexDigit(d)
    ensures HexValue([a, b, c, d]) == HexDigit(a) * 0x1000 + HexDigit(b) * 0x100 + HexDigit(c) * 0x10 + HexDigit(d)
  {
    assert [a, b, c, d][..3] == [a, b, c] && [a, b, c][..2] == [a, b];
    HexOf2(a, b);
    assert HexValue([a, b, c]) == HexDigit(a) * 0x100 + HexDigit(b) * 0x10 + HexDigit(c);
  }

  /** Groups that hold an IPv4 address are judged as that address. */
  lemma EmbeddedDecides(g: seq<nat>, q: Quad)
    requires AreAddress(g) && IsQuad(q) && Embedded(g) == Some(q)
    ensures ForbiddenGroups(g) <==> ForbiddenV4(Dotted(q))
  {
    hide ForbiddenGroups, Embedded, ForbiddenV4, IsForbiddenQuad, IsPrivateGroups, Dotted;
    ForbiddenGroupsDecides(g);
    ForbiddenV4Decides(q);
  }

  lemma MappedPrefix()
    ensures AreGroups(["ffff"]) && GroupValues(["ffff"]) == [0xffff] && BeforeQuad([], ["ffff"]) == "::ffff:"
  {
    HexOf4('f', 'f', 'f', 'f');
    assert "ffff" == ['f', 'f', 'f', 'f'];
    assert ["ffff"][1..] == [];
  }

  function Ends(q: Quad): seq<nat> {
    [q.a * 0x100 + q.b, q.c * 0x100 + q.d]
  }

  lemma MappedGroups(q: Quad)
    requires IsQuad(q)
    ensures V6Groups("::ffff:" + Dotted(q)) == Some([0, 0, 0, 0, 0, 0xffff] + Ends(q))
  {
    hide Dotted, V6Groups, HexValue, BeforeQuad, IsQuad, IsGroupText, AreZero;
    ZeroTexts(5);
    MappedPrefix();
    QuadFormGroups([], Zeros(5), ["ffff"], q);
    hide GroupValues, Zeros;
    assert GroupValues(Zeros(5)) == [0, 0, 0, 0, 0];
    NoGroups();
    assert [] + [0, 0, 0, 0, 0] + [0xffff] == [0, 0, 0, 0, 0, 0xffff];
  }

  lemma NoGroups()
    ensures GroupValues([]) == []
  {
  }

  lemma MappedEmbeds(q: Quad)
    requires IsQuad(q)
    ensures var g := [0, 0, 0, 0, 0, 0xffff] + Ends(q); AreAddress(g) && Embedded(g) == Some(q)
  {
    Pairs(q);
  }

  /** An IPv4-mapped address is judged as the IPv4 address it maps. */
  lemma MappedDecidesAsV4(q: Quad)
    requires IsQuad(q)
    ensures ForbiddenV6("::ffff:" + Dotted(q)) <==> ForbiddenV4(Dotted(q))
  {
    hide Dotted, V6Groups, ForbiddenV4, ForbiddenGroups, Embedded, AreAddress, IsQuad;
    MappedGroups(q);
    MappedEmbeds(q);
    EmbeddedDecides([0, 0, 0, 0, 0, 0xffff] + Ends(q), q);
  }

  lemma CompatibleGroups(q: Quad)
    requires IsQuad(q)
    ensures V6Groups("::" + Dotted(q)) == Some([0, 0, 0, 0, 0, 0] + Ends(q))
  {
    hide Dotted, V6Groups, HexValue, IsQuad, IsGroupText, AreZero;
    ZeroTexts(6);
    QuadFormGroups([], Zeros(6), [], q);
    assert BeforeQuad([], []) == "::";
    hide GroupValues, Zeros, BeforeQuad;
    assert GroupValues(Zeros(6)) == [0, 0, 0, 0, 0, 0];
    NoGroups();
    assert [] + [0, 0, 0, 0, 0, 0] + [] == [0, 0, 0, 0, 0, 0];
  }

  lemma CompatibleEmbeds(q: Quad)
    requires IsQuad(q)
    ensures var g := [0, 0, 0, 0, 0, 0] + Ends(q);
            && AreAddress(g)
            && (Embedded(g) == Some(q) || (Embedded(g) == None && IsPrivateGroups(g) && IsForbiddenQuad(q)))
  {
    Pairs(q);
  }

  /** So is an IPv4-compatible one; :: and ::1 are forbidden, as 0.0.0.0 and 0.0.0.1 are. */
  lemma CompatibleDecidesAsV4(q: Quad)
    requires IsQuad(q)
    ensures ForbiddenV6("::" + Dotted(q)) <==> ForbiddenV4(Dotted(q))
  {
    hide Dotted, V6Groups, ForbiddenV4, ForbiddenGroups, Embedded, AreAddress, IsQuad, IsPrivateGroups;
    CompatibleGroups(q);
    CompatibleEmbeds(q);
    ForbiddenGroupsDecides([0, 0, 0, 0, 0, 0] + Ends(q));
    ForbiddenV4Decides(q);
  }

  lemma Nat64Prefix()
    ensures AreGroups(["64", "ff9b"]) && GroupValues(["64", "ff9b"]) == [0x64, 0xff9b]
    ensures BeforeQuad(["64", "ff9b"], []) == "64:ff9b::"
  {
    HexOf4('f', 'f', '9', 'b');
    HexOf2('6', '4');
    assert "64" == ['6', '4'] && "ff9b" == ['f', 'f', '9', 'b'];
    TwoValues("64", "ff9b");
    assert ["64", "ff9b"][1..] == ["ff9b"];
  }

  lemma Nat64Groups(q: Quad)
    requires IsQuad(q)
    ensures V6Groups("64:ff9b::" + Dotted(q)) == Some([0x64, 0xff9b, 0, 0, 0, 0] + Ends(q))
  {
    hide Dotted, V6Groups, HexValue, BeforeQuad, IsQuad, IsGroupText, AreZero;
    ZeroTexts(4);
    Nat64Prefix();
    QuadFormGroups(["64", "ff9b"], Zeros(4), [], q);
    hide GroupValues, Zeros;
    assert GroupValues(Zeros(4)) == [0, 0, 0, 0];
    NoGroups();
    assert [0x64, 0xff9b] + [0, 0, 0, 0] + [] == [0x64, 0xff9b, 0, 0, 0, 0];
  }

  lemma Nat64Embeds(q: Quad)
    requires IsQuad(q)
    ensures var g := [0x64, 0xff9b, 0, 0, 0, 0] + Ends(q); AreAddress(g) && Embedded(g) == Some(q)
  {
    Pairs(q);
  }

  /** And so is one behind the NAT64 prefix. */
  lemma Nat64DecidesAsV4(q: Quad)
    requires IsQuad(q)
    ensures ForbiddenV6("64:ff9b::" + Dotted(q)) <==> ForbiddenV4(Dotted(q))
  {
    hide Dotted, V6Groups, ForbiddenV4, ForbiddenGroups, Embedded, AreAddress, IsQuad;
    Nat64Groups(q);
    Nat64Embeds(q);
    EmbeddedDecides([0x64, 0xff9b, 0, 0, 0, 0] + Ends(q), q);
  }

  lemma SixToFourPrefix(q: Quad)
    requires IsQuad(q)
    ensures var g := ["2002"] + QuadGroups(q); AreGroups(g) && |g| == 3 && GroupValues(g) == [0x2002] + Ends(q)
  {
    hide Hex, QuadGroups;
    HexOf4('2', '0', '0', '2');
    assert "2002" == ['2', '0', '0', '2'];
    OneValue("2002");
    QuadGroupsAreGroups(q);
    ValuesAppend(["2002"], QuadGroups(q));
    assert |QuadGroups(q)| == 2 by {
      TwoGroups(q);
    }
  }

  lemma TwoGroups(q: Quad)
    ensures |QuadGroups(q)| == 2
  {
  }

  lemma OneValue(h: string)
    requires IsGroupText(h)
    ensures AreGroups([h]) && GroupValues([h]) == [HexValue(h)]
  {
    hide HexValue, IsHexDigit;
    assert [h][1..] == [];
  }

  /** Groups that begin with 2002 embed the IPv4 address behind it. */
  lemma SixToFourEmbeds(q: Quad, g: seq<nat>)
    requires IsQuad(q) && |g| == 8 && g[..3] == [0x2002] + Ends(q) && forall x :: x in g ==> x <= 0xffff
    ensures AreAddress(g) && Embedded(g) == Some(q)
  {
    Pairs(q);
    assert g[0] == g[..3][0] == 0x2002;
    assert g[1] == g[..3][1] == q.a * 0x100 + q.b;
    assert g[2] == g[..3][2] == q.c * 0x100 + q.d;
  }

  lemma SixToFourDecides(q: Quad, text: string)
    requires IsQuad(q) && V6Groups(text).Some? && V6Groups(text).value[..3] == [0x2002] + Ends(q)
    ensures ForbiddenV6(text) <==> ForbiddenV4(Dotted(q))
  {
    hide V6Groups, Dotted, ForbiddenV4, ForbiddenGroups, Embedded, AreAddress, IsQuad;
    SixToFourEmbeds(q, V6Groups(text).value);
    EmbeddedDecides(V6Groups(text).value, q);
  }

  /** And so is a 6to4 address, whatever its other groups are, written out in full. */
  lemma SixToFourDecidesAsV4(q: Quad, rest: seq<string>)
    requires IsQuad(q) && |rest| == 5 && AreGroups(rest)
    ensures ForbiddenV6(Join(["2002"] + QuadGroups(q) + rest)) <==> ForbiddenV4(Dotted(q))
  {
    hide V6Groups, Dotted, ForbiddenV4, ForbiddenV6, IsQuad, AreGroups, GroupValues, QuadGroups, Join;
    var prefix := ["2002"] + QuadGroups(q);
    SixToFourPrefix(q);
    ValuesAppend(prefix, rest);
    FullFormIsRead(prefix + rest);
    SixToFourDecides(q, Join(prefix + rest));
  }

  /** Or with zero groups elided after the embedded address. */
  lemma ElidedSixToFourDecidesAsV4(q: Quad, tail: seq<string>)
    requires IsQuad(q) && |tail| <= 5 && AreGroups(tail)
    ensures ForbiddenV6(Elided(["2002"] + QuadGroups(q), tail)) <==> ForbiddenV4(Dotted(q))
  {
    hide V6Groups, Dotted, ForbiddenV4, ForbiddenV6, IsQuad, AreGroups, GroupValues, QuadGroups, Elided, AreZero;
    var prefix, zs := ["2002"] + QuadGroups(q), Zeros(5 - |tail|);
    SixToFourPrefix(q);
    ZeroTexts(5 - |tail|);
    ValuesAppend(prefix, zs);
    ValuesAppend(prefix + zs, tail);
    ElidedFormIsRead(prefix, zs, tail);
    assert GroupValues(prefix + zs + tail)[..3] == [0x2002] + Ends(q);
    SixToFourDecides(q, Elided(prefix, tail));
  }
}
