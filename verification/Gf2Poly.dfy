/** Polynomials over GF(2), with bit i of a number as the coefficient of X^i, and their remainder modulo a
    generator g of degree d. */
module Gf2Poly {
  import opened Bits

  ghost predicate Generator(g: nat, d: nat) {
    d >= 1 && Pow2(d) <= g < Pow2(d + 1)
  }

  /** One Horner step: (X r + b) mod g. */
  function Step(r: nat, b: nat, g: nat, d: nat): nat {
    Reduced(2 * r + b, g, d)
  }

  function Reduced(t: nat, g: nat, d: nat): nat {
    if t >= Pow2(d) then Xor(t, g) else t
  }

  /** w mod g. */
  function Rem(w: nat, g: nat, d: nat): nat {
    if w == 0 then 0 else Step(Rem(w / 2, g, d), w % 2, g, d)
  }

  /** q times g without carries. */
  function Times(q: nat, g: nat): nat {
    if q == 0 then 0 else Xor(2 * Times(q / 2, g), if q % 2 == 1 then g else 0)
  }

  /** The quotient Rem leaves behind. */
  function Quotient(w: nat, g: nat, d: nat): nat {
    if w == 0 then 0
    else 2 * Quotient(w / 2, g, d) + if 2 * Rem(w / 2, g, d) + w % 2 >= Pow2(d) then 1 else 0
  }

  lemma StepBelow(r: nat, b: nat, g: nat, d: nat)
    requires Generator(g, d) && r < Pow2(d) && b < 2
    ensures Step(r, b, g, d) < Pow2(d)
  {
    var t := 2 * r + b;
    if t >= Pow2(d) {
      XorTop(t, g, d);
    }
  }

  lemma {:induction false} RemBelow(w: nat, g: nat, d: nat)
    requires Generator(g, d)
    ensures Rem(w, g, d) < Pow2(d)
  {
    if w != 0 {
      RemBelow(w / 2, g, d);
      StepBelow(Rem(w / 2, g, d), w % 2, g, d);
    }
  }

  lemma RemDigit(w: nat, b: nat, g: nat, d: nat)
    requires b < 2
    ensures Rem(2 * w + b, g, d) == Step(Rem(w, g, d), b, g, d)
  {
    assert (2 * w + b) / 2 == w && (2 * w + b) % 2 == b;
  }

  lemma {:induction false} RemSmall(w: nat, g: nat, d: nat)
    requires w < Pow2(d)
    ensures Rem(w, g, d) == w
  {
    if w != 0 {
      RemSmall(w / 2, g, d);
    }
  }

  lemma StepLinear(r: nat, b: nat, s: nat, c: nat, g: nat, d: nat)
    requires Generator(g, d) && r < Pow2(d) && s < Pow2(d) && b < 2 && c < 2
    ensures Step(Xor(r, s), (b + c) % 2, g, d) == Xor(Step(r, b, g, d), Step(s, c, g, d))
  {
    hide Xor, Reduced;
    assert Pow2(d + 1) == 2 * Pow2(d);
    ReducedDigits(r, b, s, c, g, d);
  }

  lemma ReducedDigits(r: nat, b: nat, s: nat, c: nat, g: nat, d: nat)
    requires 2 * r + b < Pow2(d + 1) && 2 * s + c < Pow2(d + 1) && b < 2 && c < 2
    ensures Reduced(2 * Xor(r, s) + (b + c) % 2, g, d) == Xor(Reduced(2 * r + b, g, d), Reduced(2 * s + c, g, d))
  {
    hide *;
    XorDigit(r, b, s, c);
    ReducedLinear(2 * r + b, 2 * s + c, g, d);
  }

  lemma ReducedLinear(t: nat, u: nat, g: nat, d: nat)
    requires t < Pow2(d + 1) && u < Pow2(d + 1)
    ensures Reduced(Xor(t, u), g, d) == Xor(Reduced(t, g, d), Reduced(u, g, d))
  {
    hide Xor, Pow2;
    XorTop(t, u, d);
    XorRegroup(t, u, g);
  }

  lemma LinearDigit(a: nat, x: nat, b: nat, y: nat, g: nat, d: nat)
    requires Generator(g, d) && x < 2 && y < 2
    requires Rem(Xor(a, b), g, d) == Xor(Rem(a, g, d), Rem(b, g, d))
    ensures Rem(Xor(2 * a + x, 2 * b + y), g, d) == Xor(Rem(2 * a + x, g, d), Rem(2 * b + y, g, d))
  {
    hide Xor, Rem, Step, Pow2;
    XorDigit(a, x, b, y);
    RemDigit(Xor(a, b), (x + y) % 2, g, d);
    RemDigit(a, x, g, d);
    RemDigit(b, y, g, d);
    RemBelow(a, g, d);
    RemBelow(b, g, d);
    StepLinear(Rem(a, g, d), x, Rem(b, g, d), y, g, d);
  }

  /** Taking the remainder is GF(2)-linear. */
  lemma {:induction false} RemLinear(a: nat, b: nat, g: nat, d: nat)
    requires Generator(g, d)
    ensures Rem(Xor(a, b), g, d) == Xor(Rem(a, g, d), Rem(b, g, d))
    decreases a + b
  {
    if a != 0 || b != 0 {
      RemLinear(a / 2, b / 2, g, d);
      LinearDigit(a / 2, a % 2, b / 2, b % 2, g, d);
    }
  }

  lemma TimesDigit(q: nat, x: nat, g: nat)
    requires x < 2
    ensures Times(2 * q + x, g) == if x == 1 then Xor(2 * Times(q, g), g) else 2 * Times(q, g)
  {
    assert (2 * q + x) / 2 == q && (2 * q + x) % 2 == x;
    XorZero(2 * Times(q, g));
  }

  lemma DivisionDigit(h: nat, b: nat, q: nat, r: nat, g: nat, d: nat)
    requires b < 2 && h == Xor(Times(q, g), r)
    ensures 2 * h + b == Xor(Times(2 * q + if 2 * r + b >= Pow2(d) then 1 else 0, g), Step(r, b, g, d))
  {
    hide Xor, Pow2, Times;
    XorDigit(Times(q, g), 0, r, b);
    XorRegroup(2 * Times(q, g), 2 * r + b, g);
    TimesDigit(q, if 2 * r + b >= Pow2(d) then 1 else 0, g);
  }

  /** Division with remainder: w = q g + (w mod g), without carries. */
  lemma {:induction false} Division(w: nat, g: nat, d: nat)
    requires Generator(g, d)
    ensures w == Xor(Times(Quotient(w, g, d), g), Rem(w, g, d))
  {
    hide Xor, Pow2, Step;
    if w == 0 {
      XorZero(0);
    } else {
      Division(w / 2, g, d);
      DivisionDigit(w / 2, w % 2, Quotient(w / 2, g, d), Rem(w / 2, g, d), g, d);
    }
  }

  lemma RemOfGenerator(g: nat, d: nat)
    requires Generator(g, d)
    ensures Rem(g, g, d) == 0
  {
    RemSmall(g / 2, g, d);
    XorSelf(g);
  }

  /** The multiples of g leave no remainder, at any shift. */
  lemma {:induction false} RemOfMultiple(q: nat, g: nat, d: nat)
    requires Generator(g, d)
    ensures Rem(Times(q, g), g, d) == 0
  {
    if q != 0 {
      RemOfMultiple(q / 2, g, d);
      RemDigit(Times(q / 2, g), 0, g, d);
      RemOfGenerator(g, d);
      RemLinear(2 * Times(q / 2, g), if q % 2 == 1 then g else 0, g, d);
      XorZero(0);
    }
  }

  lemma {:induction false} RemOfShifted(g: nat, k: nat, d: nat)
    requires Generator(g, d)
    ensures Rem(Shl(g, k), g, d) == 0
    decreases k
  {
    if k == 0 {
      RemOfGenerator(g, d);
    } else {
      RemOfShifted(g, k - 1, d);
      RemDigit(Shl(g, k - 1), 0, g, d);
    }
  }

  /** Zero remainder means exactly: a multiple of the generator. */
  lemma RemZeroIffMultiple(w: nat, g: nat, d: nat)
    requires Generator(g, d)
    ensures Rem(w, g, d) == 0 <==> exists q: nat :: w == Times(q, g)
  {
    if Rem(w, g, d) == 0 {
      Division(w, g, d);
      XorZero(Times(Quotient(w, g, d), g));
    }
    forall q: nat | w == Times(q, g) ensures Rem(w, g, d) == 0 {
      RemOfMultiple(q, g, d);
    }
  }

  /** The only remainder below X^d is Rem: any division of w with a short enough rest has it. */
  lemma RemUnique(w: nat, q: nat, r: nat, g: nat, d: nat)
    requires Generator(g, d) && r < Pow2(d) && w == Xor(Times(q, g), r)
    ensures r == Rem(w, g, d)
  {
    RemLinear(Times(q, g), r, g, d);
    RemOfMultiple(q, g, d);
    RemSmall(r, g, d);
    XorZero(r);
  }

  /** Multiplying by X^k respects the remainder. */
  lemma {:induction false} RemShift(a: nat, b: nat, k: nat, g: nat, d: nat)
    requires Rem(a, g, d) == Rem(b, g, d)
    ensures Rem(Shl(a, k), g, d) == Rem(Shl(b, k), g, d)
    decreases k
  {
    hide Rem;
    if k != 0 {
      RemShift(a, b, k - 1, g, d);
      RemDigit(Shl(a, k - 1), 0, g, d);
      RemDigit(Shl(b, k - 1), 0, g, d);
    }
  }
}
