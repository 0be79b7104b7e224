/** Bitwise AND on naturals, shared by the byte instructions and the yield-stride test. */
module Bits {

  function And(x: nat, y: nat): (r: nat)
    ensures r <= x && r <= y
  {
    if x == 0 then 0 else (if x % 2 == 1 && y % 2 == 1 then 1 else 0) + 2 * And(x / 2, y / 2)
  }

  function Pow2(k: nat): (p: nat)
    ensures p >= 1
  {
    if k == 0 then 1 else 2 * Pow2(k - 1)
  }

  lemma OddHalf(p: nat)
    requires p >= 1
    ensures (2 * p - 1) % 2 == 1 && (2 * p - 1) / 2 == p - 1
  {
  }

  /** One bit off both ends. */
  lemma AndHalf(x: nat, p: nat)
    requires p >= 1
    ensures And(x, 2 * p - 1) == x % 2 + 2 * And(x / 2, p - 1)
  {
    OddHalf(p);
    if x == 0 {
      assert And(0, p - 1) == 0;
    }
  }

  /** A mask of k ones keeps the remainder modulo 2^k. */
  lemma {:induction false} AndOnes(x: nat, k: nat)
    ensures And(x, Pow2(k) - 1) == x % Pow2(k)
  {
    hide And;
    if k == 0 {
      AndZero(x);
    } else {
      AndOnes(x / 2, k - 1);
      AndHalf(x, Pow2(k - 1));
      HalfMod(x, Pow2(k - 1));
    }
  }

  lemma AndZero(x: nat)
    ensures And(x, 0) == 0
  {
  }

  lemma HalfMod(x: nat, p: nat)
    requires p >= 1
    ensures x % (2 * p) == x % 2 + 2 * (x / 2 % p)
  {
    var q, r := x / 2 / p, x / 2 % p;
    assert x / 2 == p * q + r;
    assert x == 2 * p * q + (2 * r + x % 2);
    var s := 2 * r + x % 2;
    assert 0 <= s < 2 * p;
    ModUnique(x, 2 * p, q, s);
  }

  lemma ModUnique(x: nat, d: nat, q: nat, r: nat)
    requires d > 0 && r < d && x == d * q + r
    ensures x % d == r && x / d == q
  {
    var q', r' := x / d, x % d;
    assert x == d * q' + r';
    assert d * (q' - q) == r - r';
    if q' > q {
      AtLeast(d, q' - q);
      assert false;
    } else if q' < q {
      AtLeast(d, q - q');
      assert false;
    }
  }

  lemma AtLeast(d: nat, n: nat)
    requires n >= 1
    ensures d * n >= d
  {
  }
}
