/** Bit-level operations on unbounded natural numbers, as Python's integers and C's shifts see them. */
module Bits {

  function Pow2(k: nat): (p: nat)
    ensures p >= 1
  {
    if k == 0 then 1 else 2 * Pow2(k - 1)
  }

  /** a << k. */
  function Shl(a: nat, k: nat): nat {
    if k == 0 then a else 2 * Shl(a, k - 1)
  }

  /** a >> k. */
  function Shr(a: nat, k: nat): nat {
    if k == 0 then a else Shr(a / 2, k - 1)
  }

  /** The k bits a >> k drops. */
  function Low(a: nat, k: nat): nat {
    if k == 0 then 0 else a % 2 + 2 * Low(a / 2, k - 1)
  }

  /** Exclusive or, bit 0 first. */
  function Xor(a: nat, b: nat): nat
    decreases a + b
  {
    if a == 0 && b == 0 then 0 else (a + b) % 2 + 2 * Xor(a / 2, b / 2)
  }

  /** Inclusive or, bit 0 first. */
  function Or(a: nat, b: nat): nat
    decreases a + b
  {
    if a == 0 && b == 0 then 0 else (if a % 2 + b % 2 > 0 then 1 else 0) + 2 * Or(a / 2, b / 2)
  }

  /** Python's int.bit_length(). */
  function BitLength(n: nat): nat {
    if n == 0 then 0 else 1 + BitLength(n / 2)
  }

  /** The n lowest bits of v as a list, least significant first. */
  function LowBits(v: nat, n: nat): (s: seq<bool>)
    ensures |s| == n
  {
    if n == 0 then [] else [v % 2 == 1] + LowBits(v / 2, n - 1)
  }

  /** The number whose binary digits are s, least significant first: I(X) at X = 2. */
  function Number(s: seq<bool>): nat {
    if s == [] then 0 else (if s[0] then 1 else 0) + 2 * Number(s[1..])
  }

  lemma {:induction false} XorCommutes(a: nat, b: nat)
    ensures Xor(a, b) == Xor(b, a)
    decreases a + b
  {
    if a != 0 || b != 0 {
      XorCommutes(a / 2, b / 2);
    }
  }

  lemma {:induction false} XorZero(a: nat)
    ensures Xor(a, 0) == a && Xor(0, a) == a
  {
    if a != 0 {
      XorZero(a / 2);
    }
  }

  lemma {:induction false} XorSelf(a: nat)
    ensures Xor(a, a) == 0
  {
    if a != 0 {
      XorSelf(a / 2);
    }
  }

  /** One digit at a time: the lowest bits are added modulo 2. */
  lemma XorDigit(a: nat, x: nat, b: nat, y: nat)
    requires x < 2 && y < 2
    ensures Xor(2 * a + x, 2 * b + y) == 2 * Xor(a, b) + (x + y) % 2
  {
    assert (2 * a + x) / 2 == a && (2 * b + y) / 2 == b;
  }

  lemma XorTwoDigits(a: nat, x: nat, b: nat, y: nat)
    requires x < 4 && y < 4
    ensures Xor(4 * a + x, 4 * b + y) == 4 * Xor(a, b) + Xor(x, y)
  {
    hide Xor;
    XorDigit(2 * a + x / 2, x % 2, 2 * b + y / 2, y % 2);
    XorDigit(a, x / 2, b, y / 2);
    XorDigit(x / 2, x % 2, y / 2, y % 2);
    XorDigit(0, x / 2, 0, y / 2);
    XorZero(0);
  }

  lemma XorHexDigit(a: nat, x: nat, b: nat, y: nat)
    requires x < 16 && y < 16
    ensures Xor(16 * a + x, 16 * b + y) == 16 * Xor(a, b) + Xor(x, y)
  {
    hide Xor;
    XorTwoDigits(4 * a + x / 4, x % 4, 4 * b + y / 4, y % 4);
    XorTwoDigits(a, x / 4, b, y / 4);
    XorTwoDigits(x / 4, x % 4, y / 4, y % 4);
  }

  lemma AssociatesDigit(a: nat, x: nat, b: nat, y: nat, c: nat, z: nat)
    requires x < 2 && y < 2 && z < 2
    requires Xor(Xor(a, b), c) == Xor(a, Xor(b, c))
    ensures Xor(Xor(2 * a + x, 2 * b + y), 2 * c + z) == Xor(2 * a + x, Xor(2 * b + y, 2 * c + z))
  {
    hide Xor;
    XorDigit(a, x, b, y);
    XorDigit(b, y, c, z);
    XorDigit(Xor(a, b), (x + y) % 2, c, z);
    XorDigit(a, x, Xor(b, c), (y + z) % 2);
  }

  lemma {:induction false} XorAssociates(a: nat, b: nat, c: nat)
    ensures Xor(Xor(a, b), c) == Xor(a, Xor(b, c))
    decreases a + b + c
  {
    if a != 0 || b != 0 || c != 0 {
      XorAssociates(a / 2, b / 2, c / 2);
      AssociatesDigit(a / 2, a % 2, b / 2, b % 2, c / 2, c % 2);
    }
  }

  /** Adding b twice changes nothing. */
  lemma XorCancels(a: nat, b: nat)
    ensures Xor(Xor(a, b), b) == a
  {
    XorAssociates(a, b, b);
    XorSelf(b);
    XorZero(a);
  }

  /** A term added on either side, or on both, of a sum. */
  lemma XorRegroup(t: nat, u: nat, g: nat)
    ensures Xor(Xor(t, g), u) == Xor(Xor(t, u), g)
    ensures Xor(t, Xor(u, g)) == Xor(Xor(t, u), g)
    ensures Xor(Xor(t, g), Xor(u, g)) == Xor(t, u)
  {
    hide Xor;
    XorAssociates(t, u, g);
    XorAssociates(t, g, u);
    XorCommutes(u, g);
    XorAssociates(Xor(t, g), u, g);
    XorCancels(Xor(t, u), g);
  }

  lemma XorInjective(a: nat, b: nat, c: nat)
    requires Xor(a, c) == Xor(b, c)
    ensures a == b
  {
    XorCancels(a, c);
    XorCancels(b, c);
  }

  lemma {:induction false} XorBelow(a: nat, b: nat, k: nat)
    requires a < Pow2(k) && b < Pow2(k)
    ensures Xor(a, b) < Pow2(k)
  {
    if k == 0 {
    } else {
      XorBelow(a / 2, b / 2, k - 1);
    }
  }

  /** The top bit of an exclusive or is the exclusive or of the top bits. */
  lemma {:induction false} XorTop(a: nat, b: nat, k: nat)
    requires a < Pow2(k + 1) && b < Pow2(k + 1)
    ensures Xor(a, b) >= Pow2(k) <==> (a >= Pow2(k)) != (b >= Pow2(k))
    decreases k
  {
    if k == 0 {
      assert Pow2(1) == 2;
      assert Xor(a / 2, b / 2) == 0;
    } else {
      XorTop(a / 2, b / 2, k - 1);
    }
  }

  lemma {:induction false} XorShl(a: nat, b: nat, k: nat)
    ensures Xor(Shl(a, k), Shl(b, k)) == Shl(Xor(a, b), k)
  {
    hide Xor;
    if k != 0 {
      XorShl(a, b, k - 1);
      XorDigit(Shl(a, k - 1), 0, Shl(b, k - 1), 0);
    }
  }

  /** Numbers with no bit in common add. */
  lemma {:induction false} XorDisjoint(hi: nat, lo: nat, k: nat)
    requires lo < Pow2(k)
    ensures Xor(Shl(hi, k), lo) == Shl(hi, k) + lo
    decreases k
  {
    hide Xor;
    if k == 0 {
      XorZero(hi);
    } else {
      XorDisjoint(hi, lo / 2, k - 1);
      XorDigit(Shl(hi, k - 1), 0, lo / 2, lo % 2);
    }
  }

  lemma {:induction false} BitLengthBounds(n: nat)
    requires n > 0
    ensures BitLength(n) >= 1 && Pow2(BitLength(n) - 1) <= n < Pow2(BitLength(n))
  {
    if n >= 2 {
      BitLengthBounds(n / 2);
    }
  }

  lemma {:induction false} Pow2Monotone(a: nat, b: nat)
    requires a <= b
    ensures Pow2(a) <= Pow2(b)
  {
    if a < b {
      Pow2Monotone(a, b - 1);
    }
  }

  lemma {:induction false} Pow2Sum(a: nat, b: nat)
    ensures Pow2(a + b) == Pow2(a) * Pow2(b)
    decreases b
  {
    if b != 0 {
      Pow2Sum(a, b - 1);
    }
  }

  lemma {:induction false} ShlPow2(a: nat, k: nat)
    ensures Shl(a, k) == a * Pow2(k)
  {
    if k != 0 {
      ShlPow2(a, k - 1);
    }
  }

  lemma {:induction false} ShlShl(a: nat, j: nat, k: nat)
    ensures Shl(Shl(a, j), k) == Shl(a, j + k)
  {
    if k != 0 {
      ShlShl(a, j, k - 1);
    }
  }

  lemma {:induction false} ShlAdd(a: nat, b: nat, k: nat)
    ensures Shl(a + b, k) == Shl(a, k) + Shl(b, k)
  {
    if k != 0 {
      ShlAdd(a, b, k - 1);
    }
  }

  /** Flipping the n bits of v counts down from all ones. */
  lemma {:induction false} XorOnes(v: nat, n: nat)
    requires v < Pow2(n)
    ensures Xor(v, Pow2(n) - 1) == Pow2(n) - 1 - v
  {
    hide Xor;
    if n == 0 {
      XorZero(0);
    } else {
      XorOnes(v / 2, n - 1);
      XorDigit(v / 2, v % 2, Pow2(n - 1) - 1, 1);
    }
  }

  lemma {:induction false} OrDisjoint(lo: nat, hi: nat, k: nat)
    requires lo < Pow2(k)
    ensures Or(lo, Shl(hi, k)) == Shl(hi, k) + lo
    decreases k
  {
    if k == 0 {
      OrZero(hi);
    } else {
      OrDisjoint(lo / 2, hi, k - 1);
    }
  }

  lemma {:induction false} OrZero(a: nat)
    ensures Or(0, a) == a
  {
    if a != 0 {
      OrZero(a / 2);
    }
  }

  lemma {:induction false} ShlDouble(a: nat, k: nat)
    ensures Shl(2 * a, k) == 2 * Shl(a, k)
  {
    if k != 0 {
      ShlDouble(a, k - 1);
    }
  }

  lemma {:induction false} ShrSplits(a: nat, k: nat)
    ensures a == Shl(Shr(a, k), k) + Low(a, k) && Low(a, k) < Pow2(k)
    decreases k
  {
    if k != 0 {
      ShrSplits(a / 2, k - 1);
    }
  }

  lemma DivisionUnique(a: nat, b: nat, q: nat, r: nat)
    requires b > 0 && r < b && a == q * b + r
    ensures a / b == q
  {
    if a / b < q {
      FactorMonotone(a / b + 1, q, b);
    } else if a / b > q {
      FactorMonotone(q + 1, a / b, b);
    }
  }

  lemma FactorMonotone(x: nat, y: nat, b: nat)
    requires x <= y
    ensures x * b <= y * b
  {
  }

  lemma ShrDivides(a: nat, k: nat)
    ensures Shr(a, k) == a / Pow2(k)
  {
    hide *;
    ShrSplits(a, k);
    ShlPow2(Shr(a, k), k);
    DivisionUnique(a, Pow2(k), Shr(a, k), Low(a, k));
  }

  lemma {:induction false} LowBitsDigit(v: nat, n: nat, j: nat)
    requires j < n
    ensures LowBits(v, n)[j] == (Shr(v, j) % 2 == 1)
    decreases n
  {
    if j > 0 {
      LowBitsDigit(v / 2, n - 1, j - 1);
    }
  }

  lemma {:induction false} NumberOfLow(v: nat, n: nat)
    requires v < Pow2(n)
    ensures Number(LowBits(v, n)) == v
    decreases n
  {
    if n > 0 {
      NumberOfLow(v / 2, n - 1);
    }
  }

  lemma {:induction false} ShrBelow(a: nat, k: nat, j: nat)
    requires a < Pow2(k + j)
    ensures Shr(a, k) < Pow2(j)
    decreases k
  {
    if k != 0 {
      ShrBelow(a / 2, k - 1, j);
    }
  }

  /** Bit k of a number with k + 1 bits tells whether it reaches 2^k. */
  lemma {:induction false} ShrTop(a: nat, k: nat)
    requires a < Pow2(k + 1)
    ensures Shr(a, k) % 2 == 1 <==> a >= Pow2(k)
    decreases k
  {
    if k != 0 {
      ShrTop(a / 2, k - 1);
    }
  }

  lemma {:induction false} ShlBelow(hi: nat, lo: nat, c: nat, j: nat)
    requires hi < Pow2(c) && lo < Pow2(j)
    ensures Shl(hi, j) + lo < Pow2(c + j)
    decreases j
  {
    if j != 0 {
      ShlBelow(hi, lo / 2, c, j - 1);
    }
  }
}
