/** The (23,12) Golay words of DCS: the oracle that searches for check bits by definition, and the fixture
    generator's systematic encoder, which must agree with it. */
module DcsGolay {
  import opened Bits
  import opened Gf2Poly
  import opened Wrappers

  const GENERATOR: nat := 0xC75 // x^11 + x^10 + x^6 + x^5 + x^4 + x^2 + 1
  const DEGREE: nat := 11
  const WORD_BITS: nat := 23
  const MARKER: nat := 4

  function Golay(w: nat): nat {
    Rem(w, GENERATOR, DEGREE)
  }

  /** The twelve low bits of a DCS word: the marker 100 over the nine-bit code, which do not overlap. */
  function Data(code: nat): nat {
    MARKER * 512 + code
  }

  /** The word a code stands for: its data bits under the check bits X^11 data mod g. */
  function CodeWord(code: nat): nat {
    Shl(Golay(Shl(Data(code), 11)), 12) + Data(code)
  }

  function CodeOf(word: nat): Option<nat> {
    if Golay(word) != 0 || word / 512 % 8 != MARKER then None else Some(word % 512)
  }

  /** The word turned right by count places, on 23 bits. */
  function Rotate(word: nat, count: nat): nat {
    var c: nat := count % WORD_BITS;
    Or(Shr(word, c), Shl(word, WORD_BITS - c)) % 0x80_0000
  }

  lemma GolayGenerator()
    ensures Generator(GENERATOR, DEGREE)
    ensures Pow2(11) == 2048 && Pow2(12) == 4096 && Pow2(23) == 0x80_0000
  {
    assert Pow2(5) == 32;
    assert Pow2(10) == 1024;
    assert Pow2(15) == 32768;
    assert Pow2(20) == 0x10_0000;
  }

  lemma ShiftedGenerator(k: nat)
    ensures Pow2(11 + k) <= Shl(GENERATOR, k) < Pow2(12 + k)
  {
    GolayGenerator();
    ShlPow2(GENERATOR, k);
    Pow2Sum(11, k);
    Pow2Sum(12, k);
  }

  /** Subtracting the generator under the top bit keeps the remainder and clears that bit. */
  lemma Subtract(w: nat, k: nat)
    requires Pow2(11 + k) <= w < Pow2(12 + k)
    ensures Golay(Xor(w, Shl(GENERATOR, k))) == Golay(w)
    ensures Xor(w, Shl(GENERATOR, k)) < Pow2(11 + k)
  {
    hide Xor, Rem, Shl, Pow2;
    GolayGenerator();
    ShiftedGenerator(k);
    XorTop(w, Shl(GENERATOR, k), 11 + k);
    RemLinear(w, Shl(GENERATOR, k), GENERATOR, DEGREE);
    RemOfShifted(GENERATOR, k, DEGREE);
    XorZero(Golay(w));
  }

  /** golay_remainder: long division from whatever the top bit is. */
  method GolayRemainder(word: nat) returns (r: nat)
    ensures r == Golay(word) && r < 2048
  {
    hide Xor, Rem, Shl, Pow2;
    GolayGenerator();
    r := word;
    while BitLength(r) >= DEGREE + 1
      invariant Golay(r) == Golay(word)
      decreases r
    {
      BitLengthBounds(r);
      var k := BitLength(r) - 1 - DEGREE;
      Subtract(r, k);
      r := Xor(r, Shl(GENERATOR, k));
    }
    if r >= 2048 {
      BitLengthBounds(r);
      Pow2Monotone(BitLength(r), 11);
    }
    RemSmall(r, GENERATOR, DEGREE);
  }

  /** dcs_word's register: the same division, one bit place at a time from the top. */
  method DcsWord(code: nat, inverted: bool) returns (word: nat)
    requires code < 512
    ensures word == if inverted then 0x7F_FFFF - CodeWord(code) else CodeWord(code)
  {
    hide Xor, Rem, Shl, Shr, Pow2, Or;
    GolayGenerator();
    var data := Data(code);
    var rem: nat := Shl(data, 11);
    ShlPow2(data, 11);
    for bit := WORD_BITS downto DEGREE
      invariant rem < Pow2(bit) && Golay(rem) == Golay(Shl(data, 11))
    {
      ShrTop(rem, bit);
      if Shr(rem, bit) % 2 == 1 {
        Subtract(rem, bit - 11);
        rem := Xor(rem, Shl(GENERATOR, bit - 11));
      }
    }
    RemSmall(rem, GENERATOR, DEGREE);
    word := Or(data, Shl(rem, 12));
    OrDisjoint(data, rem, 12);
    ShlPow2(rem, 12);
    if inverted {
      word := 0x7F_FFFF - word;
    }
  }

  /** The generator taken off a twelve-bit number, one hexadecimal digit at a time. */
  lemma TakeOff(p: nat, q: nat, r: nat)
    requires p < 16 && q < 16 && r < 16
    ensures Xor(256 * p + 16 * q + r, GENERATOR) == 256 * Xor(p, 0xC) + 16 * Xor(q, 0x7) + Xor(r, 0x5)
  {
    hide Xor;
    XorHexDigit(16 * p + q, r, 0xC7, 0x5);
    XorHexDigit(p, q, 0xC, 0x7);
  }

  /** The Horner step of an all-ones word. */
  lemma OnesStep(ones: nat, p: nat, q: nat, r: nat)
    requires p < 16 && q < 16 && r < 16 && 2 * Golay(ones) + 1 == 256 * p + 16 * q + r
    ensures Golay(2 * ones + 1) ==
            if 8 <= p then 256 * Xor(p, 0xC) + 16 * Xor(q, 0x7) + Xor(r, 0x5) else 256 * p + 16 * q + r
  {
    hide Xor, Rem, Pow2;
    GolayGenerator();
    RemDigit(ones, 1, GENERATOR, DEGREE);
    TakeOff(p, q, r);
  }

  /** g divides the all-ones word. */
  lemma OnesDivide()
    ensures Golay(0x7F_FFFF) == 0
  {
    hide Rem, Pow2;
    GolayGenerator();
    RemSmall(0x7FF, GENERATOR, DEGREE);
    OnesStep(0x7ff, 0xf, 0xf, 0xf);
    assert Golay(0xfff) == 0x38a;
    OnesStep(0xfff, 0x7, 0x1, 0x5);
    assert Golay(0x1fff) == 0x715;
    OnesStep(0x1fff, 0xe, 0x2, 0xb);
    assert Golay(0x3fff) == 0x25e;
    OnesStep(0x3fff, 0x4, 0xb, 0xd);
    assert Golay(0x7fff) == 0x4bd;
    OnesStep(0x7fff, 0x9, 0x7, 0xb);
    assert Golay(0xffff) == 0x50e;
    OnesStep(0xffff, 0xa, 0x1, 0xd);
    assert Golay(0x1ffff) == 0x668;
    OnesStep(0x1ffff, 0xc, 0xd, 0x1);
    assert Golay(0x3ffff) == 0xa4;
    OnesStep(0x3ffff, 0x1, 0x4, 0x9);
    assert Golay(0x7ffff) == 0x149;
    OnesStep(0x7ffff, 0x2, 0x9, 0x3);
    assert Golay(0xfffff) == 0x293;
    OnesStep(0xfffff, 0x5, 0x2, 0x7);
    assert Golay(0x1fffff) == 0x527;
    OnesStep(0x1fffff, 0xa, 0x4, 0xf);
    assert Golay(0x3fffff) == 0x63a;
    OnesStep(0x3fffff, 0xc, 0x7, 0x5);
    assert Golay(0x7fffff) == 0x0;
  }

  /** X^23 leaves 1: it is X times the all-ones word, plus the all-ones word, plus 1. */
  lemma Period()
    ensures Golay(Shl(1, 23)) == 1
  {
    hide Xor, Rem, Pow2, Shl;
    GolayGenerator();
    OnesDivide();
    RemDigit(0x7F_FFFF, 0, GENERATOR, DEGREE);
    XorOnes(0x3F_FFFF, 23);
    XorCommutes(0x7F_FFFF, 0x3F_FFFF);
    XorDigit(0x7F_FFFF, 0, 0x3F_FFFF, 1);
    RemLinear(0xFF_FFFE, 0x7F_FFFF, GENERATOR, DEGREE);
    XorZero(0);
    ShlPow2(1, 23);
    XorDisjoint(1, 1, 23);
    RemLinear(Shl(1, 23), 1, GENERATOR, DEGREE);
    RemSmall(1, GENERATOR, DEGREE);
    XorSelf(1);
    XorInjective(Golay(Shl(1, 23)), 1, 1);
  }

  lemma TurnsOverDigit(h: nat, b: nat)
    requires b < 2 && Golay(Shl(h, 23)) == Golay(h)
    ensures Golay(Shl(2 * h + b, 23)) == Golay(2 * h + b)
  {
    hide Xor, Rem, Shl, Pow2, Step;
    GolayGenerator();
    XorDigit(h, 0, 0, b);
    XorZero(h);
    XorShl(2 * h, b, 23);
    ShlDouble(h, 23);
    RemLinear(2 * Shl(h, 23), Shl(b, 23), GENERATOR, DEGREE);
    RemLinear(2 * h, b, GENERATOR, DEGREE);
    RemDigit(Shl(h, 23), 0, GENERATOR, DEGREE);
    RemDigit(h, 0, GENERATOR, DEGREE);
    Period();
    RemSmall(b, GENERATOR, DEGREE);
    ShlPow2(0, 23);
  }

  /** Multiplying by X^23 is the identity modulo g. */
  lemma {:induction false} TurnsOver(w: nat)
    ensures Golay(Shl(w, 23)) == Golay(w)
  {
    if w == 0 {
      ShlPow2(0, 23);
    } else {
      TurnsOver(w / 2);
      TurnsOverDigit(w / 2, w % 2);
    }
  }

  /** The search's question: which check bits complete the data to a multiple of g? Exactly one pattern does. */
  lemma Completion(check: nat, data: nat)
    requires check < 2048 && data < 4096
    ensures Golay(Shl(check, 12) + data) == 0 <==> check == Golay(Shl(data, 11))
  {
    hide Xor, Rem, Shl, Pow2;
    GolayGenerator();
    XorDisjoint(check, data, 12);
    RemLinear(Shl(check, 12), data, GENERATOR, DEGREE);
    XorSelf(Golay(data));
    if Golay(Shl(check, 12) + data) == 0 {
      XorInjective(Golay(Shl(check, 12)), Golay(data), Golay(data));
      RemShift(Shl(check, 12), data, 11, GENERATOR, DEGREE);
      ShlShl(check, 12, 11);
      TurnsOver(check);
      RemSmall(check, GENERATOR, DEGREE);
    }
    if check == Golay(Shl(data, 11)) {
      RemSmall(check, GENERATOR, DEGREE);
      RemShift(check, Shl(data, 11), 12, GENERATOR, DEGREE);
      ShlShl(data, 11, 12);
      TurnsOver(data);
    }
  }

  lemma CodeWordRange(code: nat)
    requires code < 512
    ensures CodeWord(code) < 0x80_0000 && CodeWord(code) % 4096 == Data(code)
    ensures Golay(CodeWord(code)) == 0
  {
    hide Xor, Rem, Shl, Pow2;
    GolayGenerator();
    RemBelow(Shl(Data(code), 11), GENERATOR, DEGREE);
    ShlPow2(Golay(Shl(Data(code), 11)), 12);
    Completion(Golay(Shl(Data(code), 11)), Data(code));
  }

  /** dcs_encode: the first check pattern that completes the word. It always finds one, and it is the systematic
      encoder's. */
  method DcsEncode(code: nat) returns (r: Result<nat, ()>)
    requires code < 512
    ensures r == Ok(CodeWord(code))
  {
    hide Rem, Shl, Pow2, Or;
    GolayGenerator();
    ghost var wanted := Golay(Shl(Data(code), 11));
    RemBelow(Shl(Data(code), 11), GENERATOR, DEGREE);
    for check := 0 to 2048
      invariant check <= wanted
    {
      OrDisjoint(Data(code), check, 12);
      var word := Or(Data(code), Shl(check, 12));
      var rem := GolayRemainder(word);
      Completion(check, Data(code));
      if rem == 0 {
        return Ok(word);
      }
    }
    r := Err(());
  }

  lemma Fields(word: nat)
    ensures word % 4096 == word / 512 % 8 * 512 + word % 512
  {
  }

  /** A word reads as a code exactly when it is that code's encoding. */
  lemma CodeOfExactly(word: nat, code: nat)
    requires word < 0x80_0000
    ensures CodeOf(word) == Some(code) <==> code < 512 && word == CodeWord(code)
  {
    hide Golay, Shl;
    Fields(word);
    if code < 512 {
      CodeWordRange(code);
      ShlPow2(word / 4096, 12);
      GolayGenerator();
      Completion(word / 4096, Data(code));
    }
  }

  /** Complementing all 23 bits (the inverted codes) keeps a word a codeword. */
  lemma ComplementCloses(word: nat)
    requires word < 0x80_0000
    ensures Golay(0x7F_FFFF - word) == Golay(word)
  {
    hide Xor, Rem, Shl, Pow2;
    GolayGenerator();
    XorOnes(word, 23);
    RemLinear(word, 0x7F_FFFF, GENERATOR, DEGREE);
    OnesDivide();
    XorZero(Golay(word));
  }

  /** On 23 bits the two shifted halves do not overlap. */
  lemma RotateParts(word: nat, count: nat)
    requires word < 0x80_0000
    ensures var c := count % 23;
            Rotate(word, count) == Shl(Low(word, c), 23 - c) + Shr(word, c)
            && word == Shl(Shr(word, c), c) + Low(word, c)
            && Low(word, c) < Pow2(c) && Shr(word, c) < Pow2(23 - c)
  {
    hide Or, Shl, Shr, Low, Pow2;
    GolayGenerator();
    var c := count % 23;
    var hi, lo := Shr(word, c), Low(word, c);
    ShrSplits(word, c);
    ShrBelow(word, c, 23 - c);
    OrDisjoint(hi, word, 23 - c);
    ShlAdd(Shl(hi, c), lo, 23 - c);
    ShlShl(hi, c, 23 - c);
    ShlPow2(hi, 23);
    ShlBelow(lo, hi, c, 23 - c);
  }

  /** X^c (X^(23-c) lo + hi) is X^c hi + lo again, modulo g. */
  lemma TurnedBack(hi: nat, lo: nat, c: nat)
    requires c < 23 && hi < Pow2(23 - c) && lo < Pow2(c)
    ensures Golay(Shl(Shl(lo, 23 - c) + hi, c)) == Golay(Shl(hi, c) + lo)
  {
    hide Xor, Rem, Shl, Pow2;
    GolayGenerator();
    ShlShl(lo, 23 - c, c);
    XorDisjoint(lo, hi, 23 - c);
    XorShl(Shl(lo, 23 - c), hi, c);
    RemLinear(Shl(lo, 23), Shl(hi, c), GENERATOR, DEGREE);
    TurnsOver(lo);
    XorDisjoint(hi, lo, c);
    XorCommutes(Shl(hi, c), lo);
    RemLinear(lo, Shl(hi, c), GENERATOR, DEGREE);
  }

  /** Turning a word by any number of places keeps it a codeword, and a non-codeword a non-codeword. */
  lemma RotationCloses(word: nat, count: nat)
    requires word < 0x80_0000
    ensures Golay(Rotate(word, count)) == 0 <==> Golay(word) == 0
  {
    hide Golay, Shl, Shr, Low, Pow2, Rotate;
    var c := count % 23;
    RotateParts(word, count);
    TurnedBack(Shr(word, c), Low(word, c), c);
    ShiftZero(Rotate(word, count), c);
  }

  /** No multiple of g is lost or gained by a shift. */
  lemma ShiftZero(w: nat, c: nat)
    requires c < 23
    ensures Golay(Shl(w, c)) == 0 <==> Golay(w) == 0
  {
    hide Xor, Rem, Shl, Pow2;
    assert Golay(Shl(0, c)) == 0 && Golay(Shl(0, 23 - c)) == 0 by {
      ShlPow2(0, c);
      ShlPow2(0, 23 - c);
      RemOfZero();
    }
    if Golay(w) == 0 {
      RemOfZero();
      RemShift(w, 0, c, GENERATOR, DEGREE);
    }
    if Golay(Shl(w, c)) == 0 {
      RemOfZero();
      RemShift(Shl(w, c), 0, 23 - c, GENERATOR, DEGREE);
      ShlShl(w, c, 23 - c);
      TurnsOver(w);
    }
  }

  lemma RemOfZero()
    ensures Golay(0) == 0
  {
  }
}
