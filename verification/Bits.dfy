/** Bit patterns as natural numbers, for the 32-bit operations of ECMAScript. */
module Bits {

  function Pow2(k: nat): (p: nat)
    ensures p > 0
  {
    if k == 0 then 1 else 2 * Pow2(k - 1)
  }

  /** `x & y` */
  function And(x: nat, y: nat): nat {
    if x == 0 || y == 0 then 0 else 2 * And(x / 2, y / 2) + (if x % 2 == 1 && y % 2 == 1 then 1 else 0)
  }

  /** `x | y` */
  function Or(x: nat, y: nat): nat
    decreases x + y
  {
    if x == 0 then y
    else if y == 0 then x
    else 2 * Or(x / 2, y / 2) + (if x % 2 == 1 || y % 2 == 1 then 1 else 0)
  }

  /** `(x << k) >>> 0` */
  function Shl(x: nat, k: nat): nat {
    x * Pow2(k) % Pow2(32)
  }

  lemma ModHalves(n: nat, m: nat)
    requires m > 0
    ensures n % (2 * m) == 2 * (n / 2 % m) + n % 2
  {
    var q, r := n / 2 / m, n / 2 % m;
    assert n == 2 * (m * q + r) + n % 2;
    var rest := 2 * r + n % 2;
    assert n == 2 * m * q + rest;
    RemainderIs(n, 2 * m, q, rest);
  }

  lemma MoreByOneFactor(m: int, p: int, q: int)
    requires m > 0 && p < q
    ensures m * p + m <= m * q
  {
    assert m * (q - p - 1) >= 0;
    assert m * (q - p - 1) == m * q - m * p - m;
  }

  lemma NotLess(m: int, q: int, r: int, p: int, t: int)
    requires 0 <= r < m && 0 <= t < m && m * q + r == m * p + t
    ensures q <= p
  {
    if p < q {
      MoreByOneFactor(m, p, q);
    }
  }

  lemma RemainderIs(n: int, m: int, q: int, r: int)
    requires 0 <= r < m && n == m * q + r
    ensures n % m == r && n / m == q
  {
    var p, t := n / m, n % m;
    assert n == m * p + t;
    NotLess(m, q, r, p, t);
    NotLess(m, p, t, q, r);
  }

  /** The bit of value 2^i. */
  predicate Bit(x: nat, i: nat) {
    if i == 0 then x % 2 == 1 else Bit(x / 2, i - 1)
  }

  lemma {:induction false} NoBits(i: nat)
    ensures !Bit(0, i)
  {
    if i > 0 {
      NoBits(i - 1);
    }
  }

  /** `&` and `|` work on each bit by itself. */
  lemma {:induction false} BitByBit(x: nat, y: nat, i: nat)
    ensures Bit(And(x, y), i) <==> Bit(x, i) && Bit(y, i)
    ensures Bit(Or(x, y), i) <==> Bit(x, i) || Bit(y, i)
    decreases i
  {
    if x == 0 || y == 0 {
      NoBits(i);
    } else if i > 0 {
      BitByBit(x / 2, y / 2, i - 1);
    }
  }

  /** A mask of all but the lowest `k` of `w` bits clears those `k`. */
  lemma {:induction false} MaskClears(n: nat, k: nat, w: nat)
    requires k <= w && n < Pow2(w)
    ensures Pow2(k) <= Pow2(w) && And(n, Pow2(w) - Pow2(k)) == n - n % Pow2(k)
    decreases w
  {
    if w > 0 {
      if k == 0 {
        MaskClears(n / 2, 0, w - 1);
        assert Pow2(w) - 1 == 2 * (Pow2(w - 1) - 1) + 1;
        KeepsAll(n, w);
      } else {
        MaskClears(n / 2, k - 1, w - 1);
        ModHalves(n, Pow2(k - 1));
        var m := Pow2(w - 1) - Pow2(k - 1);
        assert Pow2(w) - Pow2(k) == 2 * m;
      }
    }
  }

  lemma {:induction false} KeepsAll(n: nat, w: nat)
    requires n < Pow2(w)
    ensures And(n, Pow2(w) - 1) == n
  {
    if w > 0 {
      KeepsAll(n / 2, w - 1);
      var m := Pow2(w - 1) - 1;
      assert Pow2(w) - 1 == 2 * m + 1;
    }
  }

  /** A mask of the lowest `k` bits keeps those. */
  lemma {:induction false} LowBits(n: nat, k: nat)
    ensures And(n, Pow2(k) - 1) == n % Pow2(k)
  {
    if k > 0 {
      LowBits(n / 2, k - 1);
      ModHalves(n, Pow2(k - 1));
      var m := Pow2(k - 1) - 1;
      assert Pow2(k) - 1 == 2 * m + 1;
    }
  }

  /** Patterns that do not overlap are just added. */
  lemma {:induction false} OrAdds(x: nat, y: nat, k: nat)
    requires x % Pow2(k) == 0 && y < Pow2(k)
    ensures Or(x, y) == x + y
    decreases k
  {
    if k > 0 {
      ModHalves(x, Pow2(k - 1));
      OrAdds(x / 2, y / 2, k - 1);
    }
  }

  lemma Powers()
    ensures Pow2(4) == 0x10 && Pow2(6) == 0x40 && Pow2(8) == 0x100 && Pow2(9) == 0x200 && Pow2(12) == 0x1000
    ensures Pow2(16) == 0x1_0000 && Pow2(17) == 0x2_0000 && Pow2(20) == 0x10_0000 && Pow2(22) == 0x40_0000
    ensures Pow2(24) == 0x100_0000 && Pow2(28) == 0x1000_0000 && Pow2(32) == 0x1_0000_0000
  {
    assert Pow2(2) == 4;
    assert Pow2(4) == 0x10;
    assert Pow2(6) == 0x40;
    assert Pow2(8) == 0x100;
    assert Pow2(10) == 0x400;
    assert Pow2(12) == 0x1000;
    assert Pow2(14) == 0x4000;
    assert Pow2(16) == 0x1_0000;
    assert Pow2(18) == 0x4_0000;
    assert Pow2(20) == 0x10_0000;
    assert Pow2(22) == 0x40_0000;
    assert Pow2(24) == 0x100_0000;
    assert Pow2(26) == 0x400_0000;
    assert Pow2(28) == 0x1000_0000;
    assert Pow2(30) == 0x4000_0000;
  }
}
