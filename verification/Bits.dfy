/**
 The unsigned shift and mask arithmetic of the hash table, over unbounded integers.
 */
module Bits {
  import opened Arithmetic

  function Pow2(k: nat): (p: nat)
    ensures p >= 1
  {
    if k == 0 then 1 else 2 * Pow2(k - 1)
  }

  /** The bitwise and of two unsigned integers. */
  function And(a: nat, b: nat): nat {
    if a == 0 || b == 0 then 0
    else 2 * And(a / 2, b / 2) + (if a % 2 == 1 && b % 2 == 1 then 1 else 0)
  }

  /** The right shift of an unsigned integer. */
  function Shr(a: nat, k: nat): nat {
    if k == 0 then a else Shr(a / 2, k - 1)
  }

  /** Bit k of the and is set exactly if it is in both. */
  lemma {:induction false} AndIsBitwise(a: nat, b: nat, k: nat)
    ensures Shr(And(a, b), k) % 2 == 1 <==> Shr(a, k) % 2 == 1 && Shr(b, k) % 2 == 1
    decreases k
  {
    if a == 0 || b == 0 {
      ShrOfZero(k);
    } else if k > 0 {
      AndIsBitwise(a / 2, b / 2, k - 1);
      assert And(a, b) / 2 == And(a / 2, b / 2);
    }
  }

  lemma {:induction false} ShrOfZero(k: nat)
    ensures Shr(0, k) == 0
  {
    if k > 0 { ShrOfZero(k - 1); }
  }

  /** Masking with an odd number keeps the lowest bit. */
  lemma MaskStep(a: nat, p: nat)
    requires p >= 1
    ensures And(a, 2 * p - 1) == 2 * And(a / 2, p - 1) + a % 2
  {
    assert (2 * p - 1) / 2 == p - 1 && (2 * p - 1) % 2 == 1;
    if a == 0 { assert And(a / 2, p - 1) == 0; }
  }

  /** Masking with a power of two less one is the remainder by that power. */
  lemma {:induction false} MaskIsMod(a: nat, k: nat)
    ensures And(a, Pow2(k) - 1) == a % Pow2(k)
    decreases k
  {
    hide And;
    if k == 0 {
      MaskNone(a);
    } else {
      MaskIsMod(a / 2, k - 1);
      MaskTwice(a, Pow2(k - 1));
    }
  }

  lemma MaskNone(a: nat)
    ensures And(a, 0) == 0 == a % 1
  {
  }

  lemma MaskTwice(a: nat, p: nat)
    requires p >= 1 && And(a / 2, p - 1) == (a / 2) % p
    ensures And(a, 2 * p - 1) == a % (2 * p)
  {
    hide And;
    MaskStep(a, p);
    ModByDouble(a, p);
  }

  lemma ModByDouble(a: nat, p: nat)
    requires p >= 1
    ensures a % (2 * p) == 2 * ((a / 2) % p) + a % 2
  {
    var q, r := (a / 2) / p, (a / 2) % p;
    assert a / 2 == q * p + r;
    assert a == q * (2 * p) + (2 * r + a % 2);
    DivModIs(a, 2 * p, q, 2 * r + a % 2);
  }

  lemma DivByDouble(a: nat, p: nat)
    requires p >= 1
    ensures a / (2 * p) == (a / 2) / p
  {
    var q, r := (a / 2) / p, (a / 2) % p;
    assert a / 2 == q * p + r;
    assert a == q * (2 * p) + (2 * r + a % 2);
    DivModIs(a, 2 * p, q, 2 * r + a % 2);
  }

  /** Shifting is division by a power of two. */
  lemma {:induction false} ShrIsDiv(a: nat, k: nat)
    ensures Shr(a, k) == a / Pow2(k)
    decreases k
  {
    if k > 0 {
      ShrIsDiv(a / 2, k - 1);
      DivByDouble(a, Pow2(k - 1));
    }
  }

  function CeilDiv(n: nat, d: nat): nat
    requires d >= 1
  {
    (n + d - 1) / d
  }

  /** The shift and the mask together are the quotient rounded up. */
  lemma ShiftAndMaskIsCeil(n: nat, k: nat)
    ensures Shr(n, k) + (if And(n, Pow2(k) - 1) != 0 then 1 else 0) == CeilDiv(n, Pow2(k))
  {
    ShrIsDiv(n, k);
    MaskIsMod(n, k);
    CeilByRemainder(n, Pow2(k));
  }

  lemma CeilByRemainder(n: nat, p: nat)
    requires p >= 1
    ensures CeilDiv(n, p) == n / p + (if n % p != 0 then 1 else 0)
  {
    var q, r := n / p, n % p;
    assert n == q * p + r;
    if r == 0 {
      DivModIs(n + p - 1, p, q, p - 1);
    } else {
      DivModIs(n + p - 1, p, q + 1, r - 1);
    }
  }

  /** What leaves remainder b when divided by n leaves b or b + n when divided by 2 * n. */
  lemma ModSplits(h: nat, n: nat)
    requires n >= 1
    ensures h % (2 * n) == h % n || h % (2 * n) == h % n + n
  {
    var q, r := h / (2 * n), h % (2 * n);
    assert h == q * (2 * n) + r;
    if r < n {
      assert h == (2 * q) * n + r;
      DivModIs(h, n, 2 * q, r);
    } else {
      assert h == (2 * q + 1) * n + (r - n);
      DivModIs(h, n, 2 * q + 1, r - n);
    }
  }
}
