/** Bitwise or and and of non-negative integers, by recursion on their bits. */
module Bits {
  import opened Arithmetic

  function BitOr(x: nat, y: nat): nat {
    if x == 0 then y
    else if y == 0 then x
    else 2 * BitOr(x / 2, y / 2) + (if x % 2 == 1 || y % 2 == 1 then 1 else 0)
  }

  function BitAnd(x: nat, y: nat): nat {
    if x == 0 || y == 0 then 0
    else 2 * BitAnd(x / 2, y / 2) + (if x % 2 == 1 && y % 2 == 1 then 1 else 0)
  }

  lemma OrStep(x: nat, y: nat)
    ensures BitOr(x, 2 * y) == 2 * BitOr(x / 2, y) + x % 2
  {
    if x == 0 || y == 0 {
    } else {
      assert 2 * y / 2 == y && 2 * y % 2 == 0;
    }
  }

  lemma AndStep(x: nat, m: nat)
    ensures BitAnd(x, 2 * m + 1) == 2 * BitAnd(x / 2, m) + x % 2
  {
    if x != 0 {
      assert (2 * m + 1) / 2 == m && (2 * m + 1) % 2 == 1;
    }
  }

  function Pow2(k: nat): nat { if k == 0 then 1 else 2 * Pow2(k - 1) }

  /** Bits below a shifted word do not overlap it, so the bitwise or of the two is their sum. */
  lemma {:induction false} OrBelow(id: nat, q: nat, k: nat)
    requires id < Pow2(k)
    ensures BitOr(id, Pow2(k) * q) == id + Pow2(k) * q
  {
    if k != 0 {
      var high := Pow2(k - 1) * q;
      assert Pow2(k) * q == 2 * high by { Twice(Pow2(k - 1), q); }
      OrBelow(id / 2, q, k - 1);
      OrStep(id, high);
    }
  }

  lemma Twice(p: nat, q: nat)
    ensures (2 * p) * q == 2 * (p * q)
  {
  }

  /** From the remainder of `x / 2` modulo `m` to that of `x` modulo `2 * m`. */
  lemma HalfMod(x: nat, m: nat)
    requires m > 0
    ensures x % (2 * m) == 2 * (x / 2 % m) + x % 2
  {
    var y, z, w := x / 2, x / 2 / m, x / 2 % m;
    assert y == m * z + w;
    assert x == (2 * m) * z + (2 * w + x % 2) by { Twice(m, z); }
    DivideBy(x, 2 * m, z, 2 * w + x % 2);
  }

  /** And-ing with `k` ones keeps the low `k` bits. */
  lemma {:induction false} AndBelow(x: nat, k: nat)
    ensures Pow2(k) >= 1 && BitAnd(x, Pow2(k) - 1) == x % Pow2(k)
  {
    if k > 0 {
      AndBelow(x / 2, k - 1);
      AndStep(x, Pow2(k - 1) - 1);
      HalfMod(x, Pow2(k - 1));
    }
  }

  lemma {:induction false} OrCommutes(x: nat, y: nat)
    ensures BitOr(x, y) == BitOr(y, x)
  {
    if x != 0 && y != 0 {
      OrCommutes(x / 2, y / 2);
    }
  }

  lemma OrHalves(x: nat, y: nat)
    ensures BitOr(x, y) / 2 == BitOr(x / 2, y / 2)
    ensures BitOr(x, y) % 2 == if x % 2 == 1 || y % 2 == 1 then 1 else 0
  {
  }

  lemma {:induction false} OrAssociates(x: nat, y: nat, z: nat)
    ensures BitOr(BitOr(x, y), z) == BitOr(x, BitOr(y, z))
    decreases x
  {
    if x != 0 {
      OrAssociates(x / 2, y / 2, z / 2);
      OrHalves(x, y);
      OrHalves(y, z);
      OrHalves(BitOr(x, y), z);
      OrHalves(x, BitOr(y, z));
    }
  }
}
