/** Shifts and bitwise operators on unsigned words, bit by bit. */
module Bits {
  /** `a << k`, for words wide enough to hold it. */
  function Shl(a: nat, k: nat): nat {
    if k == 0 then a else 2 * Shl(a, k - 1)
  }

  /** `a >> k` */
  function Shr(a: nat, k: nat): nat {
    if k == 0 then a else Shr(a / 2, k - 1)
  }

  /** `a | b` */
  function Or(a: nat, b: nat): nat {
    if a == 0 && b == 0 then 0
    else 2 * Or(a / 2, b / 2) + if a % 2 == 1 || b % 2 == 1 then 1 else 0
  }

  /** `a & b` */
  function And(a: nat, b: nat): nat {
    if a == 0 || b == 0 then 0
    else 2 * And(a / 2, b / 2) + if a % 2 == 1 && b % 2 == 1 then 1 else 0
  }

  lemma {:induction false} OrZero(a: nat)
    ensures Or(a, 0) == a
  {
    if a > 0 { OrZero(a / 2); }
  }

  /** Bits that do not overlap add up. */
  lemma {:induction false} OrAddsUp(a: nat, b: nat, k: nat)
    requires b < Shl(1, k)
    ensures Or(Shl(a, k), b) == Shl(a, k) + b
  {
    if k == 0 {
      OrZero(a);
    } else {
      OrAddsUp(a, b / 2, k - 1);
    }
  }

  /** Masking with k ones keeps the k lowest bits. */
  function Low(a: nat, k: nat): nat {
    if k == 0 then 0 else a % 2 + 2 * Low(a / 2, k - 1)
  }

  lemma {:induction false} AndMask(a: nat, k: nat)
    ensures Shl(1, k) > 0 && And(a, Shl(1, k) - 1) == Low(a, k)
  {
    if k > 0 {
      AndMask(a / 2, k - 1);
      assert (Shl(1, k) - 1) / 2 == Shl(1, k - 1) - 1 && (Shl(1, k) - 1) % 2 == 1;
      if a == 0 { LowZero(k); }
    }
  }

  lemma {:induction false} LowZero(k: nat)
    ensures Low(0, k) == 0
  {
    if k > 0 { LowZero(k - 1); }
  }

  lemma {:induction false} ShrShr(a: nat, j: nat, k: nat)
    ensures Shr(a, j + k) == Shr(Shr(a, j), k)
  {
    if j > 0 { ShrShr(a / 2, j - 1, k); }
  }

  // ---- Six and eight bits ---------------------------------------------------

  lemma ShlByte(a: nat)
    ensures Shl(a, 8) == 256 * a && Shl(a, 16) == 65536 * a
  {
    assert Shl(a, 2) == 2 * Shl(a, 1) == 4 * a;
    assert Shl(a, 4) == 2 * Shl(a, 3) == 4 * Shl(a, 2);
    assert Shl(a, 8) == 2 * Shl(a, 7) == 4 * Shl(a, 6) == 8 * Shl(a, 5) == 16 * Shl(a, 4);
    assert Shl(a, 12) == 2 * Shl(a, 11) == 4 * Shl(a, 10) == 8 * Shl(a, 9) == 16 * Shl(a, 8);
    assert Shl(a, 16) == 2 * Shl(a, 15) == 4 * Shl(a, 14) == 8 * Shl(a, 13) == 16 * Shl(a, 12);
  }

  lemma ShrSextet(a: nat)
    ensures Shr(a, 6) == a / 64
  {
    assert Shr(a, 6) == Shr(a / 2, 5) == Shr(a / 4, 4) == Shr(a / 8, 3);
    assert Shr(a / 8, 3) == Shr(a / 16, 2) == Shr(a / 32, 1) == a / 64;
  }

  lemma ShrSextets(a: nat)
    ensures Shr(a, 12) == a / 4096 && Shr(a, 18) == a / 262144
  {
    ShrShr(a, 6, 6);
    ShrShr(a, 12, 6);
    ShrSextet(a);
    ShrSextet(a / 64);
    ShrSextet(a / 4096);
  }

  lemma Scaled(d: int, b: nat)
    ensures d >= 1 ==> d * b >= b
    ensures d <= -1 ==> d * b + b <= 0
  {
  }

  lemma ModUnique(x: nat, b: nat, q: nat, r: nat)
    requires b > 0 && x == q * b + r && r < b
    ensures x % b == r
  {
    var d := x / b - q;
    assert x == (x / b) * b + x % b;
    assert d * b == r - x % b;
    Scaled(d, b);
  }

  lemma HalfMod(a: nat, m: nat)
    requires m > 0
    ensures a % (2 * m) == a % 2 + 2 * (a / 2 % m)
  {
    var q, r := a / 2 / m, a / 2 % m;
    assert a / 2 == q * m + r;
    assert a == q * (2 * m) + (2 * r + a % 2);
    ModUnique(a, 2 * m, q, 2 * r + a % 2);
  }

  /** The k lowest bits are the remainder by 2 to the k. */
  lemma {:induction false} LowIsMod(a: nat, k: nat)
    ensures Shl(1, k) > 0 && Low(a, k) == a % Shl(1, k)
  {
    if k > 0 {
      LowIsMod(a / 2, k - 1);
      HalfMod(a, Shl(1, k - 1));
    }
  }

  /** `a & 63` */
  lemma AndSextet(a: nat)
    ensures And(a, 63) == a % 64
  {
    assert Shl(1, 6) == 2 * Shl(1, 5) == 4 * Shl(1, 4) == 8 * Shl(1, 3);
    AndMask(a, 6);
    LowIsMod(a, 6);
  }
}
