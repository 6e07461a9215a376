/**
 * Address arithmetic of the request guard (ssrf.ts): the CIDR test on JavaScript's
 * 32-bit integers.
 */
module Cidr {
  import opened Powers

  const WORD: nat := 0x1_0000_0000

  /** `x >>> 0`. */
  function ToUint32(x: int): (r: nat)
    ensures r < WORD
  {
    x % WORD
  }

  /** What the bitwise operators make of a number. */
  function ToInt32(x: int): (r: int)
    ensures ToUint32(r) == ToUint32(x)
  {
    var u := ToUint32(x);
    if u >= 0x8000_0000 then u - WORD else u
  }

  /** Bitwise and of naturals. */
  function And(a: nat, b: nat): nat {
    if a == 0 || b == 0 then 0 else (if a % 2 == 1 && b % 2 == 1 then 1 else 0) + 2 * And(a / 2, b / 2)
  }

  /** `x & y`, a signed result. */
  function BitAnd(x: int, y: int): int {
    ToInt32(And(ToUint32(x), ToUint32(y)))
  }

  /** `x << k`, a signed result; the shift distance counts modulo 32. */
  function ShiftLeft(x: int, k: nat): int {
    ToInt32(ToInt32(x) * Pow2(k % 32))
  }

  /** `ipv4ToInt` on the four octets. */
  function Ipv4ToInt(a: nat, b: nat, c: nat, d: nat): int {
    ToUint32(ShiftLeft(a, 24)) + ShiftLeft(b, 16) + ShiftLeft(c, 8) + d
  }

  function Mask(bits: nat): int {
    if bits == 0 then 0 else ToUint32(ShiftLeft(-1, if bits <= 32 then 32 - bits else 0))
  }

  function Masked(ip: nat, bits: nat): nat {
    ToUint32(BitAnd(ip, Mask(bits)))
  }

  /** `inCidr4`, the base as a number. */
  predicate InCidr4(ip: nat, base: nat, bits: nat) {
    Masked(ip, bits) == Masked(base, bits)
  }

  // ------------------------------------------------------------------ what they compute

  lemma {:induction false} Pow2Adds(m: nat, n: nat)
    ensures Pow2(m + n) == Pow2(m) * Pow2(n)
    decreases m
  {
    if m > 0 {
      Pow2Adds(m - 1, n);
    }
  }

  lemma {:induction false} Pow2Word()
    ensures Pow2(8) == 0x100 && Pow2(16) == 0x1_0000 && Pow2(24) == 0x100_0000 && Pow2(32) == WORD
  {
    assert Pow2(8) == 0x100;
    Pow2Adds(8, 8);
    Pow2Adds(16, 8);
    Pow2Adds(16, 16);
  }

  lemma {:induction false} AllOnes(a: nat, n: nat)
    requires a < Pow2(n)
    ensures And(a, Pow2(n) - 1) == a
    decreases n
  {
    if n > 0 && a > 0 {
      assert (Pow2(n) - 1) / 2 == Pow2(n - 1) - 1 && (Pow2(n) - 1) % 2 == 1;
      AllOnes(a / 2, n - 1);
    }
  }

  lemma MultipleIsBig(p: int, d: int)
    requires p > 0 && d != 0
    ensures p * d >= p || p * d <= -p
  {
  }

  lemma Quotient(x: nat, p: nat, q: nat, r: nat)
    requires p > 0 && x == p * q + r && r < p
    ensures x / p == q && x % p == r
  {
    var d := x / p - q;
    assert p * d == p * (x / p) - p * q;
    if d != 0 {
      MultipleIsBig(p, d);
    }
  }

  /** Dividing by 2p is halving and dividing by p, and the remainder is put together from both. */
  lemma HalfThenDivide(a: nat, p: nat)
    requires p > 0
    ensures a / 2 / p == a / (2 * p)
    ensures a % (2 * p) == a % 2 + 2 * (a / 2 % p)
  {
    var q, r := a / 2 / p, a / 2 % p;
    assert a / 2 == p * q + r;
    var t := p * q;
    assert a == 2 * t + (2 * r + a % 2);
    assert 2 * t == 2 * p * q;
    Quotient(a, 2 * p, q, 2 * r + a % 2);
  }

  lemma DoubleProduct(q: nat, p: nat)
    ensures 2 * (q * p) == q * (2 * p)
  {
  }

  /** Masking with the top n - k of n bits rounds down to a multiple of 2^k. */
  lemma {:induction false} TopBits(a: nat, n: nat, k: nat)
    requires a < Pow2(n) && k <= n
    requires Pow2(n) >= Pow2(k)
    ensures And(a, Pow2(n) - Pow2(k)) == a / Pow2(k) * Pow2(k)
    decreases k
  {
    if k == 0 {
      AllOnes(a, n);
    } else {
      var p, m := Pow2(k - 1), Pow2(n) - Pow2(k);
      assert m == 2 * (Pow2(n - 1) - p);
      TopBits(a / 2, n - 1, k - 1);
      HalfThenDivide(a, p);
      DoubleProduct(a / Pow2(k), p);
      AndOfEven(a, Pow2(n - 1) - p);
    }
  }

  lemma AndOfEven(a: nat, h: nat)
    ensures And(a, 2 * h) == 2 * And(a / 2, h)
  {
  }

  lemma AndOfOdd(a: nat, h: nat)
    ensures And(a, 2 * h + 1) == a % 2 + 2 * And(a / 2, h)
  {
  }

  /** Masking with the low k bits is the remainder. */
  lemma {:induction false} LowBits(a: nat, k: nat)
    ensures And(a, Pow2(k) - 1) == a % Pow2(k)
    decreases k
  {
    if k > 0 {
      var p := Pow2(k - 1);
      LowBits(a / 2, k - 1);
      HalfThenDivide(a, p);
      AndOfOdd(a, p - 1);
    }
  }

  lemma {:induction false} AndAtMost(a: nat, b: nat)
    ensures And(a, b) <= a
    decreases a
  {
    if a > 0 && b > 0 {
      AndAtMost(a / 2, b / 2);
      assert b % 2 == 0 || b % 2 == 1;
    }
  }

  lemma Small(x: nat)
    requires x < WORD
    ensures ToUint32(x) == x
  {
  }

  lemma SignedAndBack(v: nat)
    requires v < WORD
    ensures ToUint32(ToInt32(v)) == v
  {
    Small(v);
  }

  /** The sign that `&` gives a result is taken off again by `>>> 0`. */
  lemma UnsignedAnd(x: nat, y: nat)
    requires x < WORD && y < WORD
    ensures ToUint32(BitAnd(x, y)) == And(x, y)
  {
    AndAtMost(x, y);
    Small(x);
    Small(y);
    SignedAndBack(And(x, y));
  }

  lemma UnsignedNegative(p: int)
    requires 0 < p <= 0x8000_0000
    ensures ToUint32(ToInt32(-p)) == WORD - p
  {
  }

  lemma MaskValue(bits: nat)
    requires 1 <= bits <= 32
    ensures Pow2(32 - bits) <= WORD && Mask(bits) == WORD - Pow2(32 - bits)
  {
    var k := 32 - bits;
    Pow2Word();
    Pow2Grows(k, 31);
    Pow2Adds(31, 1);
    assert k % 32 == k && ToInt32(-1) == -1;
    UnsignedNegative(Pow2(k));
  }

  lemma SameProduct(m: int, n: int, x: int, y: int, p: nat)
    requires p > 0 && m == x * p && n == y * p
    ensures m == n <==> x == y
  {
    if x != y {
      MultipleIsBig(p, x - y);
      assert p * (x - y) == m - n;
    }
  }

  lemma MaskedValue(ip: nat, bits: nat, p: nat, top: int)
    requires ip < WORD && 1 <= bits <= 32 && p == Pow2(32 - bits) && top == ip / p
    ensures Masked(ip, bits) == top * p
  {
    MaskValue(bits);
    Pow2Word();
    UnsignedAnd(ip, Mask(bits));
    TopBits(ip, 32, 32 - bits);
  }

  lemma NoBits(ip: nat, base: nat, p: nat)
    requires ip < WORD && base < WORD && p == WORD
    ensures InCidr4(ip, base, 0) && ip / p == base / p
  {
    UnsignedAnd(ip, 0);
    UnsignedAnd(base, 0);
  }

  lemma SomeBits(ip: nat, base: nat, bits: nat, p: nat, top: int, baseTop: int)
    requires ip < WORD && base < WORD && 1 <= bits <= 32 && p == Pow2(32 - bits)
    requires top == ip / p && baseTop == base / p
    ensures InCidr4(ip, base, bits) <==> top == baseTop
  {
    MaskedValue(ip, bits, p, top);
    MaskedValue(base, bits, p, baseTop);
    SameProduct(Masked(ip, bits), Masked(base, bits), top, baseTop, p);
  }

  /** The signed mask test is agreement of the top bits: the quotients by p = 2^(32 - bits) are equal. */
  lemma CidrIsAgreementOfTopBits(ip: nat, base: nat, bits: nat, p: nat)
    requires ip < WORD && base < WORD && bits <= 32 && p == Pow2(32 - bits)
    ensures InCidr4(ip, base, bits) <==> ip / p == base / p
  {
    if bits == 0 {
      Pow2Word();
      NoBits(ip, base, p);
    } else {
      var top: int, baseTop: int := ip / p, base / p;
      SomeBits(ip, base, bits, p, top, baseTop);
    }
  }

  lemma ShiftSmall(x: nat, k: nat)
    requires k < 32 && x < 256 && x * Pow2(k) < WORD
    ensures ToUint32(ShiftLeft(x, k)) == x * Pow2(k)
    ensures x * Pow2(k) < 0x8000_0000 ==> ShiftLeft(x, k) == x * Pow2(k)
  {
    assert ToInt32(x) == x;
    SignedAndBack(x * Pow2(k));
  }

  /** The shifts of `ipv4ToInt` put the octets together, without a sign. */
  lemma Ipv4IsBase256(a: nat, b: nat, c: nat, d: nat)
    requires a < 256 && b < 256 && c < 256 && d < 256
    ensures Ipv4ToInt(a, b, c, d) == ((a * 256 + b) * 256 + c) * 256 + d < WORD
  {
    Pow2Word();
    ShiftSmall(a, 24);
    ShiftSmall(b, 16);
    ShiftSmall(c, 8);
  }
}
