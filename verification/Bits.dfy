/** Bitwise operations on natural numbers. */
module Bits {
  /** Bitwise exclusive or. */
  function Xor(x: nat, y: nat): nat
    decreases x + y
  {
    if x == 0 && y == 0 then 0 else (x % 2 + y % 2) % 2 + 2 * Xor(x / 2, y / 2)
  }

  /** A canary stored as `size ^ key` gives the key back: the check passes on every intact tag. */
  lemma {:induction false} XorCancels(x: nat, y: nat)
    ensures Xor(x, Xor(x, y)) == y
    decreases x + y
  {
    if x != 0 || y != 0 {
      XorCancels(x / 2, y / 2);
      XorStep(x, y);
      XorStep(x, Xor(x, y));
      BitCancels(x % 2, y % 2);
    }
  }

  /** The low bit and the rest of an exclusive or. */
  lemma XorStep(x: nat, y: nat)
    ensures Xor(x, y) % 2 == (x % 2 + y % 2) % 2 && Xor(x, y) / 2 == Xor(x / 2, y / 2)
  {
    if x == 0 && y == 0 { assert Xor(x, y) == 0; } else { Halves((x % 2 + y % 2) % 2, Xor(x / 2, y / 2)); }
  }

  lemma Halves(b: nat, z: nat)
    requires b < 2
    ensures (b + 2 * z) % 2 == b && (b + 2 * z) / 2 == z
  {
  }

  lemma BitCancels(b: nat, d: nat)
    requires b < 2 && d < 2
    ensures (b + (b + d) % 2) % 2 == d
  {
  }

  /** The bits of `x` that are not in `y`. */
  function AndNot(x: nat, y: nat): nat {
    if x == 0 then 0 else (if x % 2 == 1 && y % 2 == 0 then 1 else 0) + 2 * AndNot(x / 2, y / 2)
  }

  /** `a` shifted up by `k` bits. */
  function Shifted(a: nat, k: nat): (r: nat)
    ensures a > 0 ==> r > 0
  {
    if k == 0 then a else 2 * Shifted(a, k - 1)
  }

  lemma ShiftedFour(a: nat, k: nat)
    ensures Shifted(a, k + 4) == 16 * Shifted(a, k)
  {
    assert Shifted(a, k + 2) == 4 * Shifted(a, k);
  }

  lemma {:induction false} XorZero(x: nat)
    ensures Xor(x, 0) == x && AndNot(x, x) == 0 && AndNot(x, 0) == x
  {
    if x > 0 { XorZero(x / 2); }
  }

  lemma HalfOf(w: nat, l: nat)
    ensures (2 * w + l) % 2 == l % 2 && (2 * w + l) / 2 == w + l / 2
  {
  }

  /** Exclusive or with a number of at most `k` bits leaves the bits above alone. */
  lemma {:induction false} XorHigh(a: nat, l: nat, m: nat, k: nat)
    requires l < Shifted(1, k) && m < Shifted(1, k)
    ensures Xor(Shifted(a, k) + l, m) == Shifted(a, k) + Xor(l, m) && Xor(l, m) < Shifted(1, k)
  {
    if k == 0 {
      XorZero(a);
    } else {
      XorHigh(a, l / 2, m / 2, k - 1);
      XorHighStep(Shifted(a, k - 1), l, m, Shifted(1, k - 1));
    }
  }

  lemma XorHighStep(w: nat, l: nat, m: nat, p: nat)
    requires Xor(w + l / 2, m / 2) == w + Xor(l / 2, m / 2) && Xor(l / 2, m / 2) < p
    ensures Xor(2 * w + l, m) == 2 * w + Xor(l, m) && Xor(l, m) < 2 * p
  {
    HalfOf(w, l);
    XorStep(2 * w + l, m);
    XorStep(l, m);
    Join(Xor(2 * w + l, m), w, Xor(l, m));
  }

  lemma Join(x: nat, w: nat, l: nat)
    requires x % 2 == l % 2 && x / 2 == w + l / 2
    ensures x == 2 * w + l
  {
  }

  /** Clearing the bits above the lowest `k`. */
  lemma {:induction false} AndNotHigh(t: nat, r: nat, k: nat)
    requires r < Shifted(1, k)
    ensures AndNot(Shifted(t, k) + r, Shifted(t, k)) == r
  {
    if k == 0 {
      XorZero(t);
    } else {
      AndNotHigh(t, r / 2, k - 1);
      HalfOf(Shifted(t, k - 1), r);
      HalfOf(Shifted(t, k - 1), 0);
      AndNotStep(Shifted(t, k) + r, Shifted(t, k), r);
    }
  }

  lemma AndNotStep(x: nat, y: nat, r: nat)
    requires x % 2 == r % 2 && y % 2 == 0 && AndNot(x / 2, y / 2) == r / 2
    ensures AndNot(x, y) == r
  {
  }

  // ---------------------------------------------------------------- masks

  function And(x: nat, y: nat): nat {
    if x == 0 then 0 else (if x % 2 == 1 && y % 2 == 1 then 1 else 0) + 2 * And(x / 2, y / 2)
  }

  function Or(x: nat, y: nat): nat
    decreases x + y
  {
    if x == 0 && y == 0 then 0 else (if x % 2 == 1 || y % 2 == 1 then 1 else 0) + 2 * Or(x / 2, y / 2)
  }

  /** Bit `i` of `x` is set. */
  predicate Bit(x: nat, i: nat) { if i == 0 then x % 2 == 1 else Bit(x / 2, i - 1) }

  /** All bits of the mask are set. */
  predicate Has(x: nat, mask: nat) { And(x, mask) == mask }

  lemma HasStep(x: nat, mask: nat)
    ensures Has(x, mask) <==> (mask % 2 == 1 ==> x % 2 == 1) && Has(x / 2, mask / 2)
  {
    if x == 0 {
      assert And(x / 2, mask / 2) == 0;
    } else {
      Halves(if x % 2 == 1 && mask % 2 == 1 then 1 else 0, And(x / 2, mask / 2));
    }
  }

  lemma OrStep(x: nat, y: nat)
    ensures (Or(x, y) % 2 == 1 <==> x % 2 == 1 || y % 2 == 1) && Or(x, y) / 2 == Or(x / 2, y / 2)
  {
    if x == 0 && y == 0 {
      assert Or(0, 0) == 0;
    } else {
      Halves(if x % 2 == 1 || y % 2 == 1 then 1 else 0, Or(x / 2, y / 2));
    }
  }

  lemma HasNothing(x: nat)
    ensures Has(x, 0)
  {
    NoBits(x);
  }

  lemma {:induction false} NoBits(x: nat)
    ensures And(x, 0) == 0
  {
    if x > 0 { NoBits(x / 2); }
  }

  /** A mask of one bit tests that bit. */
  lemma {:induction false} HasOneBit(x: nat, i: nat)
    ensures Has(x, Shifted(1, i)) <==> Bit(x, i)
  {
    HasStep(x, Shifted(1, i));
    if i == 0 {
      HasNothing(x / 2);
    } else {
      HalfOf(Shifted(1, i - 1), 0);
      HasOneBit(x / 2, i - 1);
    }
  }

  /** A joined mask tests both. */
  lemma {:induction false} HasBoth(x: nat, m: nat, n: nat)
    ensures Has(x, Or(m, n)) <==> Has(x, m) && Has(x, n)
    decreases m + n
  {
    if m == 0 && n == 0 {
      HasNothing(x);
    } else {
      HasBoth(x / 2, m / 2, n / 2);
      HasStep(x, m);
      HasStep(x, n);
      HasStep(x, Or(m, n));
      OrStep(m, n);
    }
  }

  lemma {:induction false} BitOfShifted(i: nat)
    ensures Bit(Shifted(1, i), i)
  {
    if i > 0 {
      HalfOf(Shifted(1, i - 1), 0);
      BitOfShifted(i - 1);
    }
  }
}
