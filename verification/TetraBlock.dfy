/** Channel coding of a TETRA signalling block (EN 300 392-2 clause 8.2): check, rate 1/4 mother code, puncturing to
    rate 2/3, block interleaving, scrambling and packing into dibits, with the receiver that undoes it. */
module TetraBlock {
  import opened Bits
  import opened Interleaving
  import opened TetraCrc
  import opened Wrappers

  // ---- The mother code

  datatype Delay = Delay(d0: bool, d1: bool, d2: bool, d3: bool)

  const CLEAR := Delay(false, false, false, false)
  const TAIL: seq<bool> := [false, false, false, false]

  function Shifted(bit: bool, d: Delay): Delay {
    Delay(bit, d.d0, d.d1, d.d2)
  }

  function Lanes(bit: bool, d: Delay): (s: seq<bool>)
    ensures |s| == 4
  {
    [bit != (d.d0 != d.d3), bit != (d.d1 != (d.d2 != d.d3)), bit != (d.d0 != (d.d1 != d.d3)),
     bit != (d.d0 != (d.d2 != d.d3))]
  }

  function Mother(bits: seq<bool>, d: Delay): (s: seq<bool>)
    ensures |s| == 4 * |bits|
    decreases |bits|
  {
    if bits == [] then [] else Lanes(bits[0], d) + Mother(bits[1..], Shifted(bits[0], d))
  }

  /** The generator polynomials of clause 8.2.3.1.1, by the powers of D they hold: G1 to G4. */
  const GENERATORS: seq<seq<nat>> := [[0, 1, 4], [0, 2, 3, 4], [0, 1, 2, 4], [0, 1, 3, 4]]

  /** The bit so many places before bit i, 0 before the first. */
  function Before(bits: seq<bool>, i: nat, back: nat): bool
    requires i < |bits|
  {
    i >= back && bits[i - back]
  }

  /** The sum of the bits a polynomial's first n powers reach back to from bit i. */
  function Sum(bits: seq<bool>, i: nat, powers: seq<nat>, n: nat): bool
    requires i < |bits| && n <= |powers|
  {
    if n == 0 then false else Sum(bits, i, powers, n - 1) != Before(bits, i, powers[n - 1])
  }

  function MotherBit(bits: seq<bool>, i: nat, lane: nat): bool
    requires i < |bits| && lane < 4
  {
    Sum(bits, i, GENERATORS[lane], |GENERATORS[lane]|)
  }

  /** The register when bit i comes, from d at the first. */
  function DelayAt(bits: seq<bool>, i: nat, d: Delay): Delay
    requires i <= |bits|
    decreases i
  {
    if i == 0 then d else Shifted(bits[i - 1], DelayAt(bits, i - 1, d))
  }

  lemma {:induction false} DelayShifts(bits: seq<bool>, i: nat, d: Delay)
    requires 1 <= i <= |bits|
    ensures DelayAt(bits, i, d) == DelayAt(bits[1..], i - 1, Shifted(bits[0], d))
    decreases i
  {
    if i > 1 {
      DelayShifts(bits, i - 1, d);
    }
  }

  lemma {:induction false} DelayHolds(bits: seq<bool>, i: nat)
    requires i < |bits|
    ensures DelayAt(bits, i, CLEAR)
            == Delay(Before(bits, i, 1), Before(bits, i, 2), Before(bits, i, 3), Before(bits, i, 4))
    decreases i
  {
    if i > 0 {
      DelayHolds(bits, i - 1);
    }
  }

  lemma {:induction false} MotherLanes(bits: seq<bool>, d: Delay, i: nat, lane: nat)
    requires i < |bits| && lane < 4
    ensures Mother(bits, d)[4 * i + lane] == Lanes(bits[i], DelayAt(bits, i, d))[lane]
    decreases |bits|
  {
    hide Lanes, Shifted;
    if i > 0 {
      DelayShifts(bits, i, d);
      MotherLanes(bits[1..], Shifted(bits[0], d), i - 1, lane);
    }
  }

  lemma LaneSums(bits: seq<bool>, i: nat, lane: nat)
    requires i < |bits| && lane < 4
    ensures var d := Delay(Before(bits, i, 1), Before(bits, i, 2), Before(bits, i, 3), Before(bits, i, 4));
            Lanes(bits[i], d)[lane] == MotherBit(bits, i, lane)
  {
    hide Sum;
    var g := GENERATORS[lane];
    assert Before(bits, i, 0) == bits[i];
    SumFirst(bits, i, g);
    SumNext(bits, i, g, 1);
    SumNext(bits, i, g, 2);
    if |g| == 4 {
      SumNext(bits, i, g, 3);
    }
  }

  lemma SumFirst(bits: seq<bool>, i: nat, g: seq<nat>)
    requires i < |bits| && |g| >= 1
    ensures Sum(bits, i, g, 1) == Before(bits, i, g[0])
  {
    assert !Sum(bits, i, g, 0);
  }

  lemma SumNext(bits: seq<bool>, i: nat, g: seq<nat>, n: nat)
    requires i < |bits| && n < |g|
    ensures Sum(bits, i, g, n + 1) == (Sum(bits, i, g, n) != Before(bits, i, g[n]))
  {
  }

  /** Lane by lane, each input bit's four outputs are the sums its generator polynomials name. */
  lemma MotherIsGenerated(bits: seq<bool>, i: nat, lane: nat)
    requires i < |bits| && lane < 4
    ensures Mother(bits, CLEAR)[4 * i + lane] == MotherBit(bits, i, lane)
  {
    hide Mother, MotherBit, DelayAt, Lanes;
    MotherLanes(bits, CLEAR, i, lane);
    DelayHolds(bits, i);
    LaneSums(bits, i, lane);
  }

  method TetraConvEncode(bits: seq<bool>) returns (out: seq<bool>)
    ensures out == Mother(bits, CLEAR)
    ensures |out| == 4 * |bits|
    ensures forall i, lane :: 0 <= i < |bits| && 0 <= lane < 4 ==> out[4 * i + lane] == MotherBit(bits, i, lane)
  {
    forall i, lane | 0 <= i < |bits| && 0 <= lane < 4
      ensures Mother(bits, CLEAR)[4 * i + lane] == MotherBit(bits, i, lane)
    {
      MotherIsGenerated(bits, i, lane);
    }
    var delayed := CLEAR;
    out := [];
    for i := 0 to |bits|
      invariant out + Mother(bits[i..], delayed) == Mother(bits, CLEAR)
    {
      out := out + Lanes(bits[i], delayed);
      delayed := Shifted(bits[i], delayed);
    }
  }

  // ---- Puncturing

  /** An index past the end of a list. */
  datatype Fault = IndexError

  /** The 1-based mother position the j-th transmitted bit is taken from. */
  function PunctureIndex(j: nat): (k: nat)
    requires j >= 1
    ensures k >= 1
  {
    8 * ((j - 1) / 3) + if (j - 1) % 3 == 0 then 1 else if (j - 1) % 3 == 1 then 2 else 5
  }

  function Punctured(mother: seq<bool>, n: nat): (r: Result<seq<bool>, Fault>)
    ensures r.Ok? ==> |r.value| == n
  {
    if n > 0 && PunctureIndex(n) > |mother| then Err(IndexError)
    else Ok(seq(n, j requires 0 <= j < n => Increasing(j + 1, n); mother[PunctureIndex(j + 1) - 1]))
  }

  lemma Increasing(i: nat, j: nat)
    requires 1 <= i <= j
    ensures PunctureIndex(i) <= PunctureIndex(j)
  {
    assert (i - 1) / 3 <= (j - 1) / 3;
  }

  /** Where the first, second and fifth of every eight mother bits stand. */
  const KEPT: seq<nat> := [1, 2, 5]

  lemma IndexKept(j: nat)
    requires j >= 1
    ensures PunctureIndex(j) == 8 * ((j - 1) / 3) + KEPT[(j - 1) % 3]
  {
  }

  lemma KeptAscend(j: nat)
    requires j >= 1
    ensures PunctureIndex(j) < PunctureIndex(j + 1) && PunctureIndex(j) % 8 in KEPT
  {
    var q, r := (j - 1) / 3, (j - 1) % 3;
    assert j == 3 * q + r + 1;
    if r == 2 {
      assert j / 3 == q + 1;
    } else {
      assert j / 3 == q;
    }
    assert PunctureIndex(j) == 8 * q + KEPT[r];
  }

  lemma IndexOf(q: nat, r: nat)
    requires r < 3
    ensures PunctureIndex(3 * q + r + 1) == 8 * q + KEPT[r]
  {
    assert (3 * q + r) / 3 == q && (3 * q + r) % 3 == r;
  }

  /** The positions kept, counting from 1, are in ascending order exactly those that are 1, 2 or 5 modulo 8. */
  lemma KeptPositions(k: nat)
    requires k >= 1
    ensures (exists j :: j >= 1 && PunctureIndex(j) == k) <==> k % 8 in KEPT
    ensures forall j: nat :: j >= 1 ==> PunctureIndex(j) < PunctureIndex(j + 1) && PunctureIndex(j) % 8 in KEPT
  {
    hide PunctureIndex;
    forall j: nat | j >= 1 ensures PunctureIndex(j) < PunctureIndex(j + 1) && PunctureIndex(j) % 8 in KEPT {
      KeptAscend(j);
    }
    if k % 8 in KEPT {
      var r := if k % 8 == 1 then 0 else if k % 8 == 2 then 1 else 2;
      IndexOf(k / 8, r);
    }
  }

  method Puncture(mother: seq<bool>, n: nat) returns (r: Result<seq<bool>, Fault>)
    ensures r == Punctured(mother, n)
    ensures r.Ok? ==> |r.value| == n && forall j :: 0 <= j < n ==>
              8 * (j / 3) + KEPT[j % 3] <= |mother| && r.value[j] == mother[8 * (j / 3) + KEPT[j % 3] - 1]
    ensures r.Err? <==> n > 0 && 8 * ((n - 1) / 3) + KEPT[(n - 1) % 3] > |mother|
  {
    hide PunctureIndex;
    var taken := [];
    for j := 1 to n + 1
      invariant |taken| == j - 1 && (j > 1 ==> PunctureIndex(j - 1) <= |mother|)
      invariant forall i :: 1 <= i < j ==> PunctureIndex(i) <= |mother| && taken[i - 1] == mother[PunctureIndex(i) - 1]
    {
      if PunctureIndex(j) > |mother| {
        Increasing(j, n);
        IndexKept(n);
        return Err(IndexError);
      }
      taken := taken + [mother[PunctureIndex(j) - 1]];
    }
    r := Ok(taken);
    assert r.value == Punctured(mother, n).value;
    forall j | 0 <= j < n
      ensures 8 * (j / 3) + KEPT[j % 3] <= |mother| && r.value[j] == mother[8 * (j / 3) + KEPT[j % 3] - 1]
    {
      IndexKept(j + 1);
    }
    if n > 0 {
      IndexKept(n);
    }
  }

  /** The mother code of m bits holds three transmitted bits for every two, and one more half for an odd last. */
  lemma PunctureFits(n: nat, m: nat)
    requires n > 0
    ensures PunctureIndex(n) <= 4 * m <==> n <= (3 * m + 1) / 2
  {
  }

  // ---- Scrambling

  const TAPS: seq<nat> := [0, 6, 9, 10, 16, 20, 21, 22, 24, 25, 27, 28, 30, 31]

  /** The scrambler's state: the bits of the seed, least significant first, 32 of them or more. */
  type Register = s: seq<bool> | |s| >= 32 witness seq(32, _ => false)

  function Seeded(seed: nat): Register {
    LowBits(seed, if BitLength(seed) > 32 then BitLength(seed) else 32)
  }

  function TapSum(state: Register, k: nat): bool
    requires k <= |TAPS|
  {
    if k == 0 then false else TapSum(state, k - 1) != state[TAPS[k - 1]]
  }

  function Pn(state: Register): bool {
    TapSum(state, |TAPS|)
  }

  /** The state shifted down, with the new bit or-ed in at place 31. */
  function Next(state: Register): Register {
    if |state| == 32 then state[1..] + [Pn(state)] else state[1..][31 := state[32] || Pn(state)]
  }

  function Scrambled(bits: seq<bool>, state: Register): (r: seq<bool>)
    ensures |r| == |bits|
    decreases |bits|
  {
    if bits == [] then [] else [bits[0] != Pn(state)] + Scrambled(bits[1..], Next(state))
  }

  /** Each bit is summed with its own key bit. */
  lemma {:induction false} ScrambledWithKey(bits: seq<bool>, state: Register, k: nat)
    ensures forall i :: 0 <= i < |bits| ==>
              Scrambled(bits, StateAfter(state, k))[i] == (bits[i] != Key(state, k + i))
    decreases |bits|
  {
    hide Pn, Next;
    if bits != [] {
      ScrambledWithKey(bits[1..], state, k + 1);
      assert Next(StateAfter(state, k)) == StateAfter(state, k + 1);
      forall i | 0 < i < |bits| ensures Scrambled(bits, StateAfter(state, k))[i] == (bits[i] != Key(state, k + i)) {
        var rest := bits[1..];
        assert Scrambled(rest, StateAfter(state, k + 1))[i - 1] == (rest[i - 1] != Key(state, k + 1 + (i - 1)));
      }
    }
  }

  lemma KeyedOutput(bits: seq<bool>, state: Register)
    ensures forall i :: 0 <= i < |bits| ==> Scrambled(bits, state)[i] == (bits[i] != Key(state, i))
  {
    hide Pn, Next, Scrambled, Key;
    ScrambledWithKey(bits, state, 0);
    assert StateAfter(state, 0) == state;
  }

  /** The register starts with the seed's binary digits, the least significant first, and zeros above them. */
  lemma SeedDigits(seed: nat, j: nat)
    requires j < |Seeded(seed)|
    ensures Seeded(seed)[j] == (seed / Pow2(j) % 2 == 1)
    ensures |Seeded(seed)| >= 32 && seed < Pow2(|Seeded(seed)|) && (seed < Pow2(32) ==> |Seeded(seed)| == 32)
  {
    hide Shr, LowBits, Pow2;
    LowBitsDigit(seed, |Seeded(seed)|, j);
    ShrDivides(seed, j);
    if seed > 0 {
      BitLengthBounds(seed);
      Pow2Monotone(BitLength(seed), |Seeded(seed)|);
      if BitLength(seed) > 32 {
        Pow2Monotone(32, BitLength(seed) - 1);
      }
    }
  }

  method TetraScramble(bits: seq<bool>, seed: nat) returns (out: seq<bool>)
    ensures out == Scrambled(bits, Seeded(seed))
    ensures |out| == |bits| && forall i :: 0 <= i < |bits| ==> out[i] == (bits[i] != Key(Seeded(seed), i))
  {
    hide Pn, Next, Seeded, Key;
    var state := Seeded(seed);
    out := [];
    for i := 0 to |bits|
      invariant out + Scrambled(bits[i..], state) == Scrambled(bits, Seeded(seed))
    {
      var pn := SumTaps(state);
      assert bits[i..][1..] == bits[i + 1..];
      out := out + [bits[i] != pn];
      state := Next(state);
    }
    KeyedOutput(bits, Seeded(seed));
  }

  method SumTaps(state: Register) returns (pn: bool)
    ensures pn == Pn(state)
  {
    pn := false;
    for t := 0 to |TAPS|
      invariant pn == TapSum(state, t)
    {
      pn := pn != state[TAPS[t]];
    }
  }

  /** Scrambling twice from one seed is the identity, for a seed of any width. */
  lemma {:induction false} ScrambleInverts(bits: seq<bool>, state: Register)
    ensures Scrambled(Scrambled(bits, state), state) == bits
    decreases |bits|
  {
    if bits != [] {
      ScrambleInverts(bits[1..], Next(state));
      assert Scrambled(bits, state)[1..] == Scrambled(bits[1..], Next(state));
    }
  }

  function StateAfter(state: Register, k: nat): Register {
    if k == 0 then state else Next(StateAfter(state, k - 1))
  }

  /** The k-th scrambling bit. */
  function Key(state: Register, k: nat): bool {
    Pn(StateAfter(state, k))
  }

  /** The key stream with the seed's bits before it, the most significant last. */
  function Stream(state: Register, i: int): bool
    requires i >= -32
  {
    if i < 0 then state[32 + i] else Key(state, i)
  }

  lemma {:induction false} StateHoldsKeys(state: Register, k: nat, j: nat)
    requires |state| == 32 && j < 32
    ensures |StateAfter(state, k)| == 32 && StateAfter(state, k)[31 - j] == Stream(state, k - 1 - j)
    decreases k
  {
    if k > 0 {
      StateHoldsKeys(state, k - 1, if j == 0 then 0 else j - 1);
    }
  }

  /** How far back the scrambling polynomial of clause 8.2.5.2 reaches, term by term. */
  const BACK: seq<nat> := [32, 26, 23, 22, 16, 12, 11, 10, 8, 7, 5, 4, 2, 1]

  /** The sum of the bits that far before key bit k. */
  function KeySum(state: Register, k: nat, n: nat): bool
    requires n <= |BACK|
  {
    if n == 0 then false else KeySum(state, k, n - 1) != Stream(state, k - BACK[n - 1])
  }

  lemma TapsReachBack(n: nat)
    requires n < |TAPS|
    ensures |TAPS| == |BACK| && 1 <= BACK[n] <= 32 && TAPS[n] == 32 - BACK[n]
  {
  }

  lemma {:induction false} TapsAreKeys(state: Register, k: nat, n: nat)
    requires |state| == 32 && n <= |TAPS| == |BACK|
    ensures TapSum(StateAfter(state, k), n) == KeySum(state, k, n)
    decreases n
  {
    hide StateAfter, Key, Stream;
    if n > 0 {
      TapsAreKeys(state, k, n - 1);
      TapsReachBack(n - 1);
      StateHoldsKeys(state, k, BACK[n - 1] - 1);
    }
  }

  /** The recurrence of clause 8.2.5.2, from the first key bit on: bit k is the sum of the bits 1, 2, 4, 5, 7, 8, 10,
      11, 12, 16, 22, 23, 26 and 32 before it, which the seed supplies to begin with. */
  lemma KeyRecurrence(state: Register, k: nat)
    requires |state| == 32
    ensures Key(state, k) == KeySum(state, k, |BACK|)
  {
    hide StateAfter, TapSum, KeySum;
    TapsReachBack(0);
    TapsAreKeys(state, k, |TAPS|);
  }

  // ---- Dibits

  function Bit(b: bool): nat {
    if b then 1 else 0
  }

  function Packed(bits: seq<bool>): (r: Result<seq<nat>, Fault>)
    ensures r.Ok? <==> |bits| % 2 == 0
    ensures r.Ok? ==> |r.value| == |bits| / 2
  {
    if |bits| % 2 == 1 then Err(IndexError)
    else Ok(seq(|bits| / 2, i requires 0 <= i < |bits| / 2 => 2 * Bit(bits[2 * i]) + Bit(bits[2 * i + 1])))
  }

  /** The i-th bit sent: the high one of its dibit first. */
  function SentBit(dibits: seq<nat>, i: nat): bool
    requires i < 2 * |dibits|
  {
    if i % 2 == 0 then dibits[i / 2] / 2 == 1 else dibits[i / 2] % 2 == 1
  }

  function Unpacked(dibits: seq<nat>): (bits: seq<bool>)
    ensures |bits| == 2 * |dibits|
  {
    seq(2 * |dibits|, i requires 0 <= i < 2 * |dibits| => SentBit(dibits, i))
  }

  method PackDibits(bits: seq<bool>) returns (r: Result<seq<nat>, Fault>)
    ensures r == Packed(bits)
    ensures r.Ok? <==> |bits| % 2 == 0
    ensures r.Ok? ==> |r.value| == |bits| / 2 && forall i :: 0 <= i < |bits| / 2 ==>
              r.value[i] == 2 * (if bits[2 * i] then 1 else 0) + if bits[2 * i + 1] then 1 else 0
  {
    var dibits: seq<nat> := [];
    var i := 0;
    while i < |bits|
      invariant i == 2 * |dibits| && i <= |bits|
      invariant forall j :: 0 <= j < |dibits| ==> dibits[j] == 2 * Bit(bits[2 * j]) + Bit(bits[2 * j + 1])
    {
      if i + 1 >= |bits| {
        return Err(IndexError);
      }
      dibits := dibits + [2 * Bit(bits[i]) + Bit(bits[i + 1])];
      i := i + 2;
    }
    r := Ok(dibits);
    assert dibits == Packed(bits).value;
  }

  lemma UnpackInverts(bits: seq<bool>)
    requires |bits| % 2 == 0
    ensures Unpacked(Packed(bits).value) == bits
  {
  }

  // ---- The whole block

  /** The dibits of a protected block, or the fault the list indexing raises. */
  function BlockDibits(block: seq<bool>, a: nat, seed: nat, n: nat): (r: Result<seq<nat>, Fault>)
    ensures r.Ok? ==> |r.value| == n / 2
  {
    var punctured := Punctured(Mother(block + TAIL, CLEAR), n);
    if punctured.Err? then Err(punctured.error)
    else Packed(Scrambled(Interleaved(punctured.value, a, n), Seeded(seed)))
  }

  method CodeBlock(block: seq<bool>, a: nat, seed: nat, n: nat) returns (r: Result<seq<nat>, Fault>)
    ensures r == BlockDibits(block, a, seed, n)
  {
    var mother := TetraConvEncode(block + TAIL);
    var punctured := Puncture(mother, n);
    if punctured.Err? {
      return Err(punctured.error);
    }
    var interleaved := Interleave(punctured.value, a);
    var scrambled := TetraScramble(interleaved, seed);
    r := PackDibits(scrambled);
  }

  /** What the j-th transmitted bit carries, counting from 1: the generator's bit at its mother position, summed with
      the key bit of the place the interleaver puts it. */
  ghost predicate CarriesBit(dibits: seq<nat>, block: seq<bool>, a: nat, seed: nat, n: nat, j: nat)
    requires 1 <= j <= n == 2 * |dibits| && n <= (3 * |block| + 1) / 2
  {
    var place := a * j % n;
    var mother := 8 * ((j - 1) / 3) + KEPT[(j - 1) % 3] - 1;
    MotherPlace(j, n, |block|);
    place < n && SentBit(dibits, place) == (MotherBit(block, mother / 4, mother % 4) != Key(Seeded(seed), place))
  }

  lemma MotherPlace(j: nat, n: nat, m: nat)
    requires 1 <= j <= n <= (3 * m + 1) / 2
    ensures 8 * ((j - 1) / 3) + KEPT[(j - 1) % 3] == PunctureIndex(j) <= 4 * m
  {
    Increasing(j, n);
    PunctureFits(n, m);
  }

  /** From the block to the air: every transmitted bit of a coded block, for an interleaver step coprime to their
      number. */
  lemma EveryBitSent(block: seq<bool>, a: nat, seed: nat, n: nat, j: nat)
    requires BlockDibits(block, a, seed, n).Ok? && Gcd(a, n) == 1 && 1 <= j <= n
    ensures n == 2 * |BlockDibits(block, a, seed, n).value| && n <= (3 * |block + TAIL| + 1) / 2
    ensures CarriesBit(BlockDibits(block, a, seed, n).value, block + TAIL, a, seed, n, j)
  {
    hide Mother, MotherBit, Interleaved, Scrambled, PunctureIndex, Gcd, Seeded, Key, SentBit;
    var bits := block + TAIL;
    CodedExactlyWhen(block, a, seed, n);
    var p := Punctured(Mother(bits, CLEAR), n).value;
    var mixed := Interleaved(p, a, n);
    var place := Place(a, j, n);
    MotherPlace(j, n, |bits|);
    var k := PunctureIndex(j) - 1;
    MotherIsGenerated(bits, k / 4, k % 4);
    assert p[j - 1] == MotherBit(bits, k / 4, k % 4);
    InPlace(p, a, n, j);
    ScrambledWithKey(mixed, Seeded(seed), 0);
    assert StateAfter(Seeded(seed), 0) == Seeded(seed);
    assert Scrambled(mixed, Seeded(seed))[place] == (mixed[place] != Key(Seeded(seed), place));
    UnpackInverts(Scrambled(mixed, Seeded(seed)));
    assert Unpacked(BlockDibits(block, a, seed, n).value)[place] == (mixed[place] != Key(Seeded(seed), place));
  }

  ghost predicate CarriesBlock(dibits: seq<nat>, block: seq<bool>, a: nat, seed: nat, n: nat) {
    && n == 2 * |dibits|
    && n <= (3 * |block| + 1) / 2
    && forall j :: 1 <= j <= n ==> CarriesBit(dibits, block, a, seed, n, j)
  }

  lemma BlockCarried(block: seq<bool>, a: nat, seed: nat, n: nat)
    requires BlockDibits(block, a, seed, n).Ok? && Gcd(a, n) == 1
    ensures CarriesBlock(BlockDibits(block, a, seed, n).value, block + TAIL, a, seed, n)
  {
    hide BlockDibits, CarriesBit, Gcd;
    CodedExactlyWhen(block, a, seed, n);
    var dibits := BlockDibits(block, a, seed, n).value;
    forall j | 1 <= j <= n
      ensures n <= (3 * |block + TAIL| + 1) / 2 && CarriesBit(dibits, block + TAIL, a, seed, n, j)
    {
      EveryBitSent(block, a, seed, n, j);
    }
  }

  /** tetra_control_block_dibits. */
  method TetraControlBlockDibits(info: seq<bool>, interleaveA: nat, seed: nat, transmittedBits: nat)
    returns (r: Result<seq<nat>, Fault>)
    ensures r == BlockDibits(Protected(info), interleaveA, seed, transmittedBits)
    ensures r.Ok? <==> transmittedBits % 2 == 0 && transmittedBits <= (3 * (|info| + 20) + 1) / 2
    ensures r.Ok? && Gcd(interleaveA, transmittedBits) == 1 ==>
              CarriesBlock(r.value, Protected(info) + TAIL, interleaveA, seed, transmittedBits)
  {
    var completed := Complete(info);
    r := CodeBlock(completed.value, interleaveA, seed, transmittedBits);
    CodedExactlyWhen(Protected(info), interleaveA, seed, transmittedBits);
    if r.Ok? && Gcd(interleaveA, transmittedBits) == 1 {
      BlockCarried(Protected(info), interleaveA, seed, transmittedBits);
    }
  }

  /** tetra_bsch_dibits over any 60-bit payload, with bit 31 flipped after the check on request. */
  method TetraBschDibits(info: seq<bool>, corruptCrc: bool) returns (r: Result<seq<nat>, Fault>)
    requires |info| == 60
    ensures r.Ok? && |r.value| == 60
    ensures var received := Received(r.value, 11, 3, 80);
            |received| == 80 && received[76..] == TAIL
            && (received[..76] == Protected(info) <==> !corruptCrc)
            && (Crc(received[..76]) == PASSES <==> !corruptCrc)
            && forall i :: 0 <= i < 76 && i != 31 ==> received[i] == Protected(info)[i]
    ensures var block := if corruptCrc then Protected(info)[31 := !Protected(info)[31]] else Protected(info);
            CarriesBlock(r.value, block + TAIL, 11, 3, 120)
  {
    hide BlockDibits, Received, Protected, Crc, Gcd;
    var completed := Complete(info);
    var block := completed.value;
    ProtectedLength(info);
    if corruptCrc {
      block := block[31 := !block[31]];
    }
    r := CodeBlock(block, 11, 3, 120);
    BschStepCoprime();
    RoundTrip(block, 11, 3, 120);
    WrongBitsFail(info, block, 31);
    BlockCarried(block, 11, 3, 120);
    assert (block + TAIL)[..76] == block && (block + TAIL)[76..] == TAIL;
  }

  lemma BschStepCoprime()
    ensures Gcd(11, 120) == 1
  {
    assert Gcd(11, 10) == Gcd(10, 1) == Gcd(1, 0);
  }

  lemma ProtectedLength(info: seq<bool>)
    ensures |Protected(info)| == |info| + 16
  {
  }

  /** The coder succeeds exactly when its output pairs up and its puncturing stays inside the mother code. */
  lemma CodedExactlyWhen(block: seq<bool>, a: nat, seed: nat, n: nat)
    ensures BlockDibits(block, a, seed, n).Ok? <==> n % 2 == 0 && n <= (3 * (|block| + 4) + 1) / 2
  {
    hide Mother, Interleaved, Scrambled, PunctureIndex, Seeded;
    if n > 0 {
      PunctureFits(n, |block| + 4);
    }
  }

  // ---- The receiver

  /** The lane-0 bits of a bit stream. */
  function LaneZero(bits: seq<bool>, d: Delay): (s: seq<bool>)
    ensures |s| == |bits|
    decreases |bits|
  {
    if bits == [] then [] else [Lanes(bits[0], d)[0]] + LaneZero(bits[1..], Shifted(bits[0], d))
  }

  /** Each bit from its lane-0 bit and the bits before it. */
  function FeedbackDecoded(lane: seq<bool>, d: Delay): (bits: seq<bool>)
    ensures |bits| == |lane|
    decreases |lane|
  {
    if lane == [] then [] else
      var bit := lane[0] != (d.d0 != d.d3);
      [bit] + FeedbackDecoded(lane[1..], Shifted(bit, d))
  }

  /** The lane-0 bits of m coder inputs among punctured ones: the first and third of every three. */
  function LaneZeroOf(punctured: seq<bool>, m: nat): (s: seq<bool>)
    requires 2 * |punctured| == 3 * m
    ensures |s| == m
  {
    seq(m, i requires 0 <= i < m => punctured[LanePlace(i)])
  }

  function LanePlace(i: nat): (k: nat)
    ensures 2 * k <= 3 * i + 1
  {
    3 * (i / 2) + if i % 2 == 0 then 0 else 2
  }

  /** Unpack, descramble, deinterleave, keep lane 0, decode: the m bits that entered the coder. */
  function Received(dibits: seq<nat>, a: nat, seed: nat, m: nat): seq<bool>
    requires 4 * |dibits| == 3 * m
  {
    FeedbackDecoded(LaneZeroOf(Deinterleaved(Scrambled(Unpacked(dibits), Seeded(seed)), a), m), CLEAR)
  }

  lemma {:induction false} FeedbackInverts(bits: seq<bool>, d: Delay)
    ensures FeedbackDecoded(LaneZero(bits, d), d) == bits
    decreases |bits|
  {
    if bits != [] {
      FeedbackInverts(bits[1..], Shifted(bits[0], d));
      assert LaneZero(bits, d)[1..] == LaneZero(bits[1..], Shifted(bits[0], d));
    }
  }

  lemma {:induction false} MotherLaneZero(bits: seq<bool>, d: Delay, i: nat)
    requires i < |bits|
    ensures Mother(bits, d)[4 * i] == LaneZero(bits, d)[i]
    decreases |bits|
  {
    if i > 0 {
      MotherLaneZero(bits[1..], Shifted(bits[0], d), i - 1);
      assert Mother(bits, d)[4 * i] == Mother(bits[1..], Shifted(bits[0], d))[4 * i - 4];
    }
  }

  /** Puncturing keeps lane 0 of every input bit. */
  lemma LaneZeroSurvives(bits: seq<bool>, n: nat)
    requires 2 * n == 3 * |bits|
    ensures Punctured(Mother(bits, CLEAR), n).Ok?
    ensures LaneZeroOf(Punctured(Mother(bits, CLEAR), n).value, |bits|) == LaneZero(bits, CLEAR)
  {
    hide Mother, LaneZero, PunctureIndex, LanePlace;
    if n > 0 {
      PunctureFits(n, |bits|);
    }
    var p := Punctured(Mother(bits, CLEAR), n).value;
    forall i | 0 <= i < |bits| ensures LaneZeroOf(p, |bits|)[i] == LaneZero(bits, CLEAR)[i] {
      MotherLaneZero(bits, CLEAR, i);
      LanePlaceIndex(i);
    }
  }

  lemma LanePlaceIndex(i: nat)
    ensures PunctureIndex(LanePlace(i) + 1) - 1 == 4 * i
  {
    var h := i / 2;
    assert (3 * h) / 3 == h && (3 * h + 2) / 3 == h;
  }

  /** At the rate 2/3 the callers use, coding succeeds exactly when the number of encoder input bits is a multiple of
      four (otherwise the transmitted bits are odd in number and packing fails), and then, for every seed and every
      interleaver step coprime to the number of transmitted bits, the receiver recovers the block and its tail. */
  lemma RoundTrip(block: seq<bool>, a: nat, seed: nat, n: nat)
    requires 2 * n == 3 * (|block| + 4)
    ensures BlockDibits(block, a, seed, n).Ok? <==> |block| % 4 == 0
    ensures |block| % 4 == 0 && Gcd(a, n) == 1 ==>
              Received(BlockDibits(block, a, seed, n).value, a, seed, |block| + 4) == block + TAIL
  {
    hide *;
    CodedExactlyWhen(block, a, seed, n);
    RateLength(|block|, n);
    if |block| % 4 == 0 && Gcd(a, n) == 1 {
      Decodes(block, a, seed, n);
    }
  }

  lemma RateLength(m: nat, n: nat)
    requires 2 * n == 3 * (m + 4)
    ensures n % 2 == 0 && n <= (3 * (m + 4) + 1) / 2 <==> m % 4 == 0
  {
    assert (3 * (m + 4) + 1) / 2 == n;
    assert m % 4 == 0 ==> n == 2 * (3 * (m / 4) + 3);
    if n % 2 == 0 {
      FourTimes(m, 3 * (n / 2) - 9 - 2 * m);
    }
  }

  lemma FourTimes(m: int, q: int)
    requires m == 4 * q
    ensures m % 4 == 0
  {
  }

  lemma Decodes(block: seq<bool>, a: nat, seed: nat, n: nat)
    requires 2 * n == 3 * (|block| + 4) && Gcd(a, n) == 1 && BlockDibits(block, a, seed, n).Ok?
    ensures Received(BlockDibits(block, a, seed, n).value, a, seed, |block| + 4) == block + TAIL
  {
    hide Mother, Punctured, Interleaved, Deinterleaved, Scrambled, Packed, Unpacked, LaneZero, LaneZeroOf,
         FeedbackDecoded, Gcd, Seeded;
    var bits := block + TAIL;
    LaneZeroSurvives(bits, n);
    var p := Punctured(Mother(bits, CLEAR), n).value;
    var mixed := Interleaved(p, a, n);
    UnpackInverts(Scrambled(mixed, Seeded(seed)));
    ScrambleInverts(mixed, Seeded(seed));
    InterleaveInverts(p, a);
    FeedbackInverts(bits, CLEAR);
  }
}
