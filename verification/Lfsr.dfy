/** Shift registers that divide a stream of bits by a generator X^d + low as it arrives: the form of both TETRA
    checks. */
module Lfsr {
  import opened Bits
  import opened Gf2Poly

  /** The number a stream spells, its first bit the most significant. */
  function Value(s: seq<bool>): nat {
    if s == [] then 0 else 2 * Value(s[..|s| - 1]) + if s[|s| - 1] then 1 else 0
  }

  /** The n low bits of v, most significant first. */
  function BigEndian(v: nat, n: nat): (s: seq<bool>)
    ensures |s| == n
    ensures v < Pow2(n) ==> Value(s) == v
  {
    if n == 0 then [] else
      var s := BigEndian(v / 2, n - 1) + [v % 2 == 1];
      assert s[..n - 1] == BigEndian(v / 2, n - 1);
      s
  }

  /** One bit into the register: feedback when it differs from the register's top bit. */
  function Feed(reg: nat, bit: bool, low: nat, d: nat): nat
    requires d >= 1
  {
    var feedback := (reg >= Pow2(d - 1)) != bit;
    if feedback then Xor(Low(2 * reg, d), low) else Low(2 * reg, d)
  }

  function FeedAll(reg: nat, s: seq<bool>, low: nat, d: nat): nat
    requires d >= 1
  {
    if s == [] then reg else Feed(FeedAll(reg, s[..|s| - 1], low, d), s[|s| - 1], low, d)
  }

  lemma {:induction false} BigEndianAt(v: nat, n: nat, i: nat)
    requires i < n
    ensures BigEndian(v, n)[i] == (Shr(v, n - 1 - i) % 2 == 1)
  {
    if i < n - 1 {
      BigEndianAt(v / 2, n - 1, i);
    }
  }

  lemma LowOfDouble(reg: nat, d: nat)
    requires d >= 1 && reg < Pow2(d)
    ensures Low(2 * reg, d) == if reg >= Pow2(d - 1) then 2 * reg - Pow2(d) else 2 * reg
  {
    LowTop(reg, d - 1);
    assert Low(2 * reg, d) == 2 * Low(reg, d - 1);
  }

  lemma {:induction false} LowTop(a: nat, k: nat)
    requires a < Pow2(k + 1)
    ensures Low(a, k) == if a >= Pow2(k) then a - Pow2(k) else a
    decreases k
  {
    if k != 0 {
      LowTop(a / 2, k - 1);
    }
  }

  lemma GeneratorOf(low: nat, d: nat)
    requires d >= 1 && low < Pow2(d)
    ensures Generator(Pow2(d) + low, d)
    ensures Rem(Pow2(d), Pow2(d) + low, d) == low
  {
    hide Xor, Rem;
    var g := Pow2(d) + low;
    assert Pow2(d) == 2 * Pow2(d - 1);
    RemDigit(Pow2(d - 1), 0, g, d);
    RemSmall(Pow2(d - 1), g, d);
    TopTaken(low, d);
  }

  lemma TopTaken(low: nat, d: nat)
    requires low < Pow2(d)
    ensures Xor(Pow2(d), Pow2(d) + low) == low
  {
    hide *;
    OneShifted(d);
    XorDisjoint(1, low, d);
    XorCommutes(Pow2(d), low);
    XorCommutes(Pow2(d), Pow2(d) + low);
    XorCancels(low, Pow2(d));
  }

  lemma {:induction false} OneShifted(d: nat)
    ensures Shl(1, d) == Pow2(d)
    decreases d
  {
    if d > 0 {
      OneShifted(d - 1);
      ShlShl(1, d - 1, 1);
      assert Shl(Shl(1, d - 1), 1) == 2 * Shl(1, d - 1);
    }
  }

  /** A step multiplies the register by X, adds the bit at X^d, and takes the remainder. */
  lemma FeedIsRem(reg: nat, bit: bool, low: nat, d: nat)
    requires d >= 1 && low < Pow2(d) && reg < Pow2(d)
    ensures Feed(reg, bit, low, d) == Rem(Xor(2 * reg, if bit then Pow2(d) else 0), Pow2(d) + low, d)
  {
    hide Xor, Rem, Low;
    var g := Pow2(d) + low;
    GeneratorOf(low, d);
    LowOfDouble(reg, d);
    RemLinear(2 * reg, if bit then Pow2(d) else 0, g, d);
    RemSmall(reg, g, d);
    RemSmall(0, g, d);
    RemDigit(reg, 0, g, d);
    var rest := Low(2 * reg, d);
    ShlPow2(1, d);
    XorDisjoint(1, low, d);
    XorDisjoint(1, rest, d);
    XorRegroup(Pow2(d), rest, low);
    XorRegroup(Pow2(d), Xor(rest, low), Pow2(d));
    XorSelf(Pow2(d));
    XorZero(Xor(rest, low));
    XorZero(rest);
    XorCancels(rest, low);
    TakeGenerator(rest, low, d);
    XorZero(Rem(2 * reg, g, d));
  }

  /** With the top bit set, taking the generator off leaves the low part plus its low terms. */
  lemma TakeGenerator(rest: nat, low: nat, d: nat)
    requires d >= 1 && low < Pow2(d) && rest < Pow2(d)
    ensures Xor(Pow2(d) + rest, Pow2(d) + low) == Xor(rest, low)
  {
    hide Xor;
    ShlPow2(1, d);
    XorDisjoint(1, low, d);
    XorDisjoint(1, rest, d);
    XorCommutes(Pow2(d), rest);
    XorCommutes(Pow2(d), low);
    XorRegroup(rest, low, Pow2(d));
  }

  /** The register after a whole stream: X^n reg + X^d I(X), modulo the generator. */
  lemma {:induction false} FeedAllIsRem(reg: nat, s: seq<bool>, low: nat, d: nat)
    requires d >= 1 && low < Pow2(d) && reg < Pow2(d)
    ensures FeedAll(reg, s, low, d) == Rem(Xor(Shl(reg, |s|), Shl(Value(s), d)), Pow2(d) + low, d)
    ensures FeedAll(reg, s, low, d) < Pow2(d)
    decreases |s|
  {
    hide Xor, Rem;
    var g := Pow2(d) + low;
    GeneratorOf(low, d);
    if s == [] {
      ShlPow2(0, d);
      XorZero(reg);
      RemSmall(reg, g, d);
    } else {
      var p, b := s[..|s| - 1], s[|s| - 1];
      FeedAllIsRem(reg, p, low, d);
      FeedIsRem(FeedAll(reg, p, low, d), b, low, d);
      ExtendByDigit(Shl(reg, |p|), Value(p), b, low, d);
      RemBelow(Xor(Shl(reg, |s|), Shl(Value(s), d)), g, d);
    }
  }

  lemma ExtendByDigit(a: nat, v: nat, b: bool, low: nat, d: nat)
    requires d >= 1 && low < Pow2(d)
    ensures var g := Pow2(d) + low; var digit := if b then 1 else 0;
            Rem(Xor(2 * Rem(Xor(a, Shl(v, d)), g, d), if b then Pow2(d) else 0), g, d)
            == Rem(Xor(2 * a, Shl(2 * v + digit, d)), g, d)
  {
    hide Xor, Rem;
    var g := Pow2(d) + low;
    var digit := if b then 1 else 0;
    GeneratorOf(low, d);
    var w := Xor(a, Shl(v, d));
    var r := Rem(w, g, d);
    RemBelow(w, g, d);
    RemSmall(r, g, d);
    RemDigit(r, 0, g, d);
    RemDigit(w, 0, g, d);
    RemLinear(2 * r, Shl(digit, d), g, d);
    RemLinear(2 * w, Shl(digit, d), g, d);
    ShlPow2(digit, d);
    assert Shl(digit, d) == if b then Pow2(d) else 0;
    XorDigit(a, 0, Shl(v, d), 0);
    ShlDouble(v, d);
    XorAssociates(2 * a, Shl(2 * v, d), Shl(digit, d));
    XorShl(2 * v, digit, d);
    XorDigit(v, 0, 0, digit);
    XorZero(v);
  }

  /** An odd generator has no factor X: a shifted number is a multiple only if the number is. */
  lemma {:induction false} ShiftKeepsRemainder(w: nat, k: nat, g: nat, d: nat)
    requires Generator(g, d) && g % 2 == 1
    ensures Rem(Shl(w, k), g, d) == 0 <==> Rem(w, g, d) == 0
    decreases k
  {
    if k != 0 {
      hide Rem;
      ShiftKeepsRemainder(w, k - 1, g, d);
      var v := Shl(w, k - 1);
      RemDigit(v, 0, g, d);
      RemBelow(v, g, d);
      var t := 2 * Rem(v, g, d);
      if t >= Pow2(d) && Xor(t, g) == 0 {
        XorSelf(g);
        XorInjective(t, g, g);
      }
    }
  }

  lemma {:induction false} ValueAppend(s: seq<bool>, t: seq<bool>)
    ensures Value(s + t) == Shl(Value(s), |t|) + Value(t) && Value(t) < Pow2(|t|)
    decreases |t|
  {
    if t == [] {
      assert s + t == s;
    } else {
      var u := t[..|t| - 1];
      ValueAppend(s, u);
      assert (s + t)[..|s + t| - 1] == s + u;
    }
  }

  lemma {:induction false} ValueInjective(s: seq<bool>, t: seq<bool>)
    requires |s| == |t| && Value(s) == Value(t)
    ensures s == t
    decreases |s|
  {
    if s != [] {
      ValueInjective(s[..|s| - 1], t[..|t| - 1]);
      assert s == s[..|s| - 1] + [s[|s| - 1]] && t == t[..|t| - 1] + [t[|t| - 1]];
    }
  }

  lemma {:induction false} FeedAllAppend(reg: nat, s: seq<bool>, t: seq<bool>, low: nat, d: nat)
    requires d >= 1
    ensures FeedAll(reg, s + t, low, d) == FeedAll(FeedAll(reg, s, low, d), t, low, d)
    decreases |t|
  {
    if t == [] {
      assert s + t == s;
    } else {
      FeedAllAppend(reg, s, t[..|t| - 1], low, d);
      assert (s + t)[..|s + t| - 1] == s + t[..|t| - 1];
    }
  }
}
