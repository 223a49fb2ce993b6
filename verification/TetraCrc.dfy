/** The two block checks of the TETRA fixtures: the 16-bit check of a signalling block (EN 300 392-2 clause
    8.2.3.3) with the search that completes it, and the speech check of EN 300 395-2 clause 5.5.1.
    A bit is a bool, a block a list of bits in transmission order. */
module TetraCrc {
  import opened Bits
  import opened Gf2Poly
  import opened Lfsr
  import opened Wrappers

  const LOW: nat := 0x1021
  const GENERATOR: nat := 0x1_1021
  const PASSES: nat := 0x1D0F

  function Crc(bits: seq<bool>): (crc: nat)
    ensures crc < 0x1_0000
  {
    RegisterRange(bits);
    FeedAll(0xFFFF, bits, LOW, 16)
  }

  /** The block a transmitter sends for info: its check complemented, most significant bit first. */
  function Protected(info: seq<bool>): seq<bool> {
    info + BigEndian(0xFFFF - Crc(info), 16)
  }

  lemma CrcGenerator()
    ensures Generator(GENERATOR, 16) && Pow2(15) == 0x8000 && Pow2(16) == 0x1_0000 == Shl(1, 16)
  {
    assert Pow2(5) == 32;
    assert Pow2(10) == 1024;
    assert Pow2(15) == 0x8000;
    ShlPow2(1, 16);
    GeneratorOf(LOW, 16);
  }

  /** tetra_crc16: the bit is added at the register's top, then the register shifts. */
  method TetraCrc16(bits: seq<bool>) returns (crc: nat)
    ensures crc == Crc(bits)
  {
    hide Xor, Low, FeedAll, Pow2;
    CrcGenerator();
    crc := 0xFFFF;
    FeedAllEmpty(0xFFFF);
    for i := 0 to |bits|
      invariant crc == FeedAll(0xFFFF, bits[..i], LOW, 16) < 0x1_0000
    {
      FeedAllIsRem(0xFFFF, bits[..i + 1], LOW, 16);
      FeedAllLast(0xFFFF, bits[..i], bits[i]);
      assert bits[..i + 1] == bits[..i] + [bits[i]];
      AddedAtTop(crc, bits[i]);
      crc := Xor(crc, if bits[i] then 0x8000 else 0);
      crc := if crc >= 0x8000 then Low(Xor(2 * crc, LOW), 16) else Low(2 * crc, 16);
    }
    assert bits[..|bits|] == bits;
  }

  lemma FeedAllEmpty(reg: nat)
    ensures FeedAll(reg, [], LOW, 16) == reg
  {
  }

  lemma FeedAllLast(reg: nat, s: seq<bool>, b: bool)
    ensures FeedAll(reg, s + [b], LOW, 16) == Feed(FeedAll(reg, s, LOW, 16), b, LOW, 16)
  {
    assert (s + [b])[..|s + [b]| - 1] == s;
  }

  /** Adding the bit before the shift is the register of Lfsr. */
  lemma AddedAtTop(crc: nat, bit: bool)
    requires crc < 0x1_0000
    ensures var c := Xor(crc, if bit then 0x8000 else 0);
            (if c >= 0x8000 then Low(Xor(2 * c, LOW), 16) else Low(2 * c, 16)) == Feed(crc, bit, LOW, 16)
  {
    hide Xor, Low, Pow2;
    CrcGenerator();
    var add := if bit then 0x8000 else 0;
    var c := Xor(crc, add);
    XorTop(crc, add, 15);
    XorBelow(crc, add, 16);
    XorDigit(crc, 0, add, 0);
    LowXor(2 * crc, 2 * add, 16);
    LowXor(2 * c, LOW, 16);
    LowSmall(LOW, 16);
    LowOfDouble(add, 16);
    XorZero(Low(2 * crc, 16));
  }

  lemma {:induction false} LowXor(a: nat, b: nat, k: nat)
    ensures Low(Xor(a, b), k) == Xor(Low(a, k), Low(b, k))
    decreases k
  {
    hide Xor;
    if k == 0 {
      XorZero(0);
    } else {
      LowXor(a / 2, b / 2, k - 1);
      XorDigit(Low(a / 2, k - 1), a % 2, Low(b / 2, k - 1), b % 2);
      XorDigit(a / 2, a % 2, b / 2, b % 2);
    }
  }

  lemma {:induction false} LowSmall(a: nat, k: nat)
    requires a < Pow2(k)
    ensures Low(a, k) == a
    decreases k
  {
    if k != 0 {
      LowSmall(a / 2, k - 1);
    }
  }

  /** The search over every 16-bit value: it always ends, in the block that passes. */
  method Complete(info: seq<bool>) returns (r: Result<seq<bool>, string>)
    ensures r == Ok(Protected(info))
  {
    hide Crc, Pow2, BigEndian;
    CrcGenerator();
    for candidate := 0 to 0x1_0000
      invariant candidate <= 0xFFFF - Crc(info)
    {
      var trial := info + BigEndian(candidate, 16);
      var crc := TetraCrc16(trial);
      OneCompletion(info, candidate);
      if crc == PASSES {
        return Ok(trial);
      }
    }
    r := Err("unable to synthesize TETRA control CRC");
  }

  lemma RegisterRange(s: seq<bool>)
    ensures FeedAll(0xFFFF, s, LOW, 16) < 0x1_0000
  {
    hide Rem, Xor, Pow2, FeedAll;
    CrcGenerator();
    FeedAllIsRem(0xFFFF, s, LOW, 16);
  }

  lemma GeneratorTakenOff(p: nat, q: nat, r: nat, s: nat)
    requires p < 16 && q < 16 && r < 16 && s < 16
    ensures Xor(0x1_0000 + 4096 * p + 256 * q + 16 * r + s, GENERATOR)
            == 4096 * Xor(p, 1) + 256 * q + 16 * Xor(r, 2) + Xor(s, 1)
  {
    hide Xor;
    XorHexDigit(0x1000 + 256 * p + 16 * q + r, s, 0x1102, 1);
    XorHexDigit(0x100 + 16 * p + q, r, 0x110, 2);
    XorHexDigit(0x10 + p, q, 0x11, 0);
    XorHexDigit(1, p, 1, 1);
    XorZero(q);
    XorSelf(1);
  }

  /** X^k times the all-ones register, modulo the generator. */
  function OnesTimesX(k: nat): nat {
    Rem(Shl(0xFFFF, k), GENERATOR, 16)
  }

  lemma TimesX(k: nat, p: nat, q: nat, r: nat, s: nat)
    requires p < 16 && q < 16 && r < 16 && s < 16
    requires OnesTimesX(k) < 0x1_0000 && 2 * OnesTimesX(k) % 0x1_0000 == 4096 * p + 256 * q + 16 * r + s
    ensures OnesTimesX(k + 1) ==
            if OnesTimesX(k) >= 0x8000 then 4096 * Xor(p, 1) + 256 * q + 16 * Xor(r, 2) + Xor(s, 1)
            else 4096 * p + 256 * q + 16 * r + s
  {
    hide Xor, Rem, Pow2;
    CrcGenerator();
    RemDigit(Shl(0xFFFF, k), 0, GENERATOR, 16);
    GeneratorTakenOff(p, q, r, s);
  }

  lemma HalfResidue()
    ensures OnesTimesX(8) == 0xe1f0
  {
    RemSmallOnes();
    hide OnesTimesX;
    TimesX(0, 0xf, 0xf, 0xf, 0xe);
    assert OnesTimesX(1) == 0xefdf;
    TimesX(1, 0xd, 0xf, 0xb, 0xe);
    assert OnesTimesX(2) == 0xcf9f;
    TimesX(2, 0x9, 0xf, 0x3, 0xe);
    assert OnesTimesX(3) == 0x8f1f;
    TimesX(3, 0x1, 0xe, 0x3, 0xe);
    assert OnesTimesX(4) == 0xe1f;
    TimesX(4, 0x1, 0xc, 0x3, 0xe);
    assert OnesTimesX(5) == 0x1c3e;
    TimesX(5, 0x3, 0x8, 0x7, 0xc);
    assert OnesTimesX(6) == 0x387c;
    TimesX(6, 0x7, 0x0, 0xf, 0x8);
    assert OnesTimesX(7) == 0x70f8;
    TimesX(7, 0xe, 0x1, 0xf, 0x0);
    assert OnesTimesX(8) == 0xe1f0;
  }

  lemma RemSmallOnes()
    ensures OnesTimesX(0) == 0xFFFF
  {
    hide Rem;
    CrcGenerator();
    RemSmall(0xFFFF, GENERATOR, 16);
  }

  /** X^16 times the all-ones register is the value a good block reads. */
  lemma Residue()
    ensures OnesTimesX(16) == PASSES
  {
    hide OnesTimesX;
    HalfResidue();
    TimesX(8, 0xc, 0x3, 0xe, 0x0);
    assert OnesTimesX(9) == 0xd3c1;
    TimesX(9, 0xa, 0x7, 0x8, 0x2);
    assert OnesTimesX(10) == 0xb7a3;
    TimesX(10, 0x6, 0xf, 0x4, 0x6);
    assert OnesTimesX(11) == 0x7f67;
    TimesX(11, 0xf, 0xe, 0xc, 0xe);
    assert OnesTimesX(12) == 0xfece;
    TimesX(12, 0xf, 0xd, 0x9, 0xc);
    assert OnesTimesX(13) == 0xedbd;
    TimesX(13, 0xd, 0xb, 0x7, 0xa);
    assert OnesTimesX(14) == 0xcb5b;
    TimesX(14, 0x9, 0x6, 0xb, 0x6);
    assert OnesTimesX(15) == 0x8697;
    TimesX(15, 0x0, 0xd, 0x2, 0xe);
    assert OnesTimesX(16) == 0x1d0f;
  }

  /** Whatever the block, exactly one 16-bit value completes it: the complement of its own check. */
  lemma OneCompletion(info: seq<bool>, v: nat)
    requires v < 0x1_0000
    ensures Crc(info + BigEndian(v, 16)) == PASSES <==> v == 0xFFFF - Crc(info)
  {
    hide Rem, Xor, Shl, Pow2, FeedAll, BigEndian;
    CrcGenerator();
    var c := Crc(info);
    FeedAllAppend(0xFFFF, info, BigEndian(v, 16), LOW, 16);
    FeedAllIsRem(c, BigEndian(v, 16), LOW, 16);
    XorShl(c, v, 16);
    XorBelow(c, v, 16);
    Residue();
    SameAfterX16(Xor(c, v), 0xFFFF);
    XorOnes(c, 16);
    XorCommutes(c, v);
    XorCommutes(c, 0xFFFF);
    XorCancels(v, c);
    XorCancels(0xFFFF, c);
  }

  /** Registers stay apart under a multiplication by X^16. */
  lemma SameAfterX16(a: nat, b: nat)
    requires a < 0x1_0000 && b < 0x1_0000
    ensures Rem(Shl(a, 16), GENERATOR, 16) == Rem(Shl(b, 16), GENERATOR, 16) <==> a == b
  {
    hide Rem, Xor, Shl, Pow2;
    CrcGenerator();
    XorShl(a, b, 16);
    RemLinear(Shl(a, 16), Shl(b, 16), GENERATOR, 16);
    ShiftKeepsRemainder(Xor(a, b), 16, GENERATOR, 16);
    XorBelow(a, b, 16);
    RemSmall(Xor(a, b), GENERATOR, 16);
    EqualIffSumZero(a, b);
    EqualIffSumZero(Rem(Shl(a, 16), GENERATOR, 16), Rem(Shl(b, 16), GENERATOR, 16));
  }

  lemma EqualIffSumZero(a: nat, b: nat)
    ensures Xor(a, b) == 0 <==> a == b
  {
    hide Xor;
    XorSelf(b);
    if Xor(a, b) == 0 {
      XorInjective(a, b, b);
    }
  }

  /** Which changes to a block go unnoticed: exactly those that add a multiple of the generator. */
  lemma UndetectedExactly(s: seq<bool>, t: seq<bool>)
    requires |s| == |t|
    ensures Crc(s) == Crc(t) <==> exists q: nat :: Xor(Value(s), Value(t)) == Times(q, GENERATOR)
  {
    hide Rem, Xor, Shl, Pow2, FeedAll, Times;
    CrcGenerator();
    FeedAllIsRem(0xFFFF, s, LOW, 16);
    FeedAllIsRem(0xFFFF, t, LOW, 16);
    var start, v, w := Shl(0xFFFF, |s|), Value(s), Value(t);
    RemLinear(Xor(start, Shl(v, 16)), Xor(start, Shl(w, 16)), GENERATOR, 16);
    EqualIffSumZero(Crc(s), Crc(t));
    XorCommutes(start, Shl(v, 16));
    XorCommutes(start, Shl(w, 16));
    XorRegroup(Shl(v, 16), Shl(w, 16), start);
    XorShl(v, w, 16);
    ShiftKeepsRemainder(Xor(v, w), 16, GENERATOR, 16);
    RemZeroIffMultiple(Xor(v, w), GENERATOR, 16);
  }

  /** So every change confined to 16 consecutive bits, however long the block, is noticed. */
  lemma BurstDetected(s: seq<bool>, t: seq<bool>, at: nat)
    requires |s| == |t| && at + 16 <= |s| && s != t
    requires s[..at] == t[..at] && s[at + 16..] == t[at + 16..]
    ensures Crc(s) != Crc(t)
  {
    hide Rem, Xor, Shl, Pow2, FeedAll, Times, Value;
    CrcGenerator();
    var head, x, y, tail := s[..at], s[at..at + 16], t[at..at + 16], s[at + 16..];
    assert s == head + x + tail && t == head + y + tail;
    UndetectedExactly(s, t);
    RemZeroIffMultiple(Xor(Value(s), Value(t)), GENERATOR, 16);
    BurstValue(head, x, y, tail);
    var e := Xor(Value(x), Value(y));
    EqualIffSumZero(Value(x), Value(y));
    if Value(x) == Value(y) {
      ValueInjective(x, y);
    }
    ShiftKeepsRemainder(e, |tail|, GENERATOR, 16);
    ValueAppend([], x);
    ValueAppend([], y);
    assert [] + x == x && [] + y == y;
    XorBelow(Value(x), Value(y), 16);
    RemSmall(e, GENERATOR, 16);
  }

  lemma BurstValue(head: seq<bool>, x: seq<bool>, y: seq<bool>, tail: seq<bool>)
    requires |x| == |y|
    ensures Xor(Value(head + x + tail), Value(head + y + tail)) == Shl(Xor(Value(x), Value(y)), |tail|)
  {
    hide Xor, Shl, Pow2, Value;
    ValueAppend(head + x, tail);
    ValueAppend(head + y, tail);
    ValueAppend(head, x);
    ValueAppend(head, y);
    var h, n := Value(head), |tail|;
    XorDisjoint(Value(head + x), Value(tail), n);
    XorDisjoint(Value(head + y), Value(tail), n);
    XorRegroup(Shl(Value(head + x), n), Shl(Value(head + y), n), Value(tail));
    XorShl(Value(head + x), Value(head + y), n);
    XorDisjoint(h, Value(x), |x|);
    XorDisjoint(h, Value(y), |x|);
    XorCommutes(Shl(h, |x|), Value(x));
    XorCommutes(Shl(h, |x|), Value(y));
    XorRegroup(Value(x), Value(y), Shl(h, |x|));
  }

  /** A sent block passes, and once up to 16 consecutive bits of it are received wrong it does not. */
  lemma WrongBitsFail(info: seq<bool>, received: seq<bool>, at: nat)
    requires |received| == |info| + 16 && at <= |info|
    requires forall i :: 0 <= i < |received| && !(at <= i < at + 16) ==> received[i] == Protected(info)[i]
    ensures Crc(Protected(info)) == PASSES
    ensures Crc(received) == PASSES <==> received == Protected(info)
  {
    hide Crc, BigEndian;
    OneCompletion(info, 0xFFFF - Crc(info));
    var sent := Protected(info);
    if received != sent {
      assert received[..at] == sent[..at] && received[at + 16..] == sent[at + 16..];
      BurstDetected(received, sent, at);
    }
  }

  /** Whether a number has an odd number of one bits. */
  function OddOnes(n: nat): bool {
    if n == 0 then false else (n % 2 == 1) != OddOnes(n / 2)
  }

  lemma {:induction false} OddOnesAdd(a: nat, b: nat)
    ensures OddOnes(Xor(a, b)) == (OddOnes(a) != OddOnes(b))
    decreases a + b
  {
    if a != 0 || b != 0 {
      hide Xor;
      OddOnesAdd(a / 2, b / 2);
      XorDigit(a / 2, a % 2, b / 2, b % 2);
      var x := Xor(a / 2, b / 2);
      assert (2 * x + (a % 2 + b % 2) % 2) / 2 == x;
    }
  }

  lemma {:induction false} MultiplesAreEven(q: nat)
    ensures !OddOnes(Times(q, GENERATOR))
  {
    if q != 0 {
      hide Xor;
      MultiplesAreEven(q / 2);
      GeneratorIsEven();
      OddOnesAdd(2 * Times(q / 2, GENERATOR), if q % 2 == 1 then GENERATOR else 0);
    }
  }

  lemma GeneratorIsEven()
    ensures !OddOnes(GENERATOR)
  {
    assert !OddOnes(0x11) && OddOnes(0x10) && OddOnes(0x20);
    assert OddOnes(0x22) == OddOnes(0x11) && OddOnes(0x44) == OddOnes(0x22) && OddOnes(0x88) == OddOnes(0x44);
    assert OddOnes(0x110) == OddOnes(0x88) && OddOnes(0x220) == OddOnes(0x110) && OddOnes(0x440) == OddOnes(0x220);
    assert OddOnes(0x881) != OddOnes(0x440) && OddOnes(0x1102) == OddOnes(0x881);
    assert OddOnes(0x2204) == OddOnes(0x1102) && OddOnes(0x4408) == OddOnes(0x2204);
    assert OddOnes(0x8810) == OddOnes(0x4408) && OddOnes(0x1_1021) != OddOnes(0x8810);
  }

  /** Every odd number of wrong bits is noticed, wherever they are: the generator has the factor X + 1. */
  lemma OddErrorsDetected(s: seq<bool>, t: seq<bool>)
    requires |s| == |t| && OddOnes(Value(s)) != OddOnes(Value(t))
    ensures Crc(s) != Crc(t)
  {
    hide Xor, FeedAll, Times, Value;
    UndetectedExactly(s, t);
    OddOnesAdd(Value(s), Value(t));
    forall q: nat ensures Xor(Value(s), Value(t)) != Times(q, GENERATOR) {
      MultiplesAreEven(q);
    }
  }

  /** tetra_speech_crc: the register fed from the last bit back, read out lowest term first. */
  method SpeechCrc(bits: seq<bool>, degree: nat, low: nat) returns (parity: seq<bool>)
    requires degree >= 1 && low < Pow2(degree)
    ensures parity == LowBits(Rem(Shl(Number(bits), degree), Pow2(degree) + low, degree), degree)
  {
    hide Xor, Rem, Low, FeedAll;
    var reg := 0;
    var i: nat := |bits|;
    ghost var fed: seq<bool> := [];
    FeedNothing(low, degree);
    while i > 0
      invariant i <= |bits| && Value(fed) == Number(bits[i..])
      invariant reg == FeedAll(0, fed, low, degree)
    {
      i := i - 1;
      FeedMore(fed, bits[i], low, degree);
      assert bits[i..][1..] == bits[i + 1..];
      fed := fed + [bits[i]];
      var feedback := (reg >= Pow2(degree - 1)) != bits[i];
      reg := Low(2 * reg, degree);
      if feedback {
        reg := Xor(reg, low);
      }
    }
    FeedAllIsRem(0, fed, low, degree);
    ShlPow2(0, |fed|);
    XorZero(Shl(Number(bits), degree));
    assert bits[0..] == bits;
    parity := LowBits(reg, degree);
  }

  lemma FeedNothing(low: nat, d: nat)
    requires d >= 1
    ensures FeedAll(0, [], low, d) == 0
  {
  }

  lemma FeedMore(s: seq<bool>, b: bool, low: nat, d: nat)
    requires d >= 1
    ensures FeedAll(0, s + [b], low, d) == Feed(FeedAll(0, s, low, d), b, low, d)
    ensures Value(s + [b]) == 2 * Value(s) + if b then 1 else 0
  {
    assert (s + [b])[..|s + [b]| - 1] == s;
  }
}
