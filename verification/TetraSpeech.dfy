/** Channel coding of a TETRA speech block, TCH/FS (EN 300 395-2 clause 5.5): a rate 1/3 trellis shared by two
    sensitivity classes with their own puncturing, the 24 x 18 interleaver, scrambling and dibits. */
module TetraSpeech {
  import opened Bits
  import opened Gf2Poly
  import opened Interleaving
  import opened TetraBlock
  import opened TetraCrc
  import opened Wrappers

  // ---- The trellis

  /** The last four input bits, s3 the newest. */
  datatype State = State(s3: bool, s2: bool, s1: bool, s0: bool)

  const ZERO := State(false, false, false, false)

  /** Which lanes are transmitted, by position modulo eight: three rows of eight. */
  datatype Pattern = Pattern(rows: seq<seq<bool>>) {
    ghost predicate Valid() {
      |rows| == 3 && forall lane :: 0 <= lane < 3 ==> |rows[lane]| == 8
    }

    predicate Sends(lane: nat, pos: nat)
      requires Valid() && lane < 3
    {
      rows[lane][pos % 8]
    }
  }

  function Pushed(bit: bool, s: State): State {
    State(bit, s.s3, s.s2, s.s1)
  }

  /** The state's share of a lane's parity: the masks 11111, 11011 and 10101 without their top bit. */
  function Feedback(lane: nat, s: State): bool {
    if lane == 0 then s.s3 != (s.s2 != (s.s1 != s.s0))
    else if lane == 1 then s.s3 != (s.s1 != s.s0)
    else s.s2 != s.s0
  }

  /** The lanes kept at a position, in order, from the given lane on. */
  function Kept(bit: bool, s: State, pattern: Pattern, pos: nat, lane: nat): seq<bool>
    requires pattern.Valid() && lane <= 3
    decreases 3 - lane
  {
    if lane == 3 then []
    else (if pattern.Sends(lane, pos) then [bit != Feedback(lane, s)] else []) + Kept(bit, s, pattern, pos, lane + 1)
  }

  lemma KeptNext(bit: bool, s: State, pattern: Pattern, pos: nat, lane: nat)
    requires pattern.Valid() && lane <= 3
    ensures lane == 3 ==> Kept(bit, s, pattern, pos, lane) == []
    ensures lane < 3 ==> Kept(bit, s, pattern, pos, lane)
                         == (if pattern.Sends(lane, pos) then [bit != Feedback(lane, s)] else [])
                            + Kept(bit, s, pattern, pos, lane + 1)
  {
  }

  function Coded(bits: seq<bool>, pattern: Pattern, pos: nat, s: State): seq<bool>
    requires pattern.Valid()
    decreases |bits|
  {
    if bits == [] then []
    else Kept(bits[0], s, pattern, pos, 0) + Coded(bits[1..], pattern, pos + 1, Pushed(bits[0], s))
  }

  function TrellisAfter(bits: seq<bool>, s: State): State
    decreases |bits|
  {
    if bits == [] then s else TrellisAfter(bits[1..], Pushed(bits[0], s))
  }

  /** encode_segment and the state it keeps between calls. */
  class SegmentEncoder {
    var state: State

    constructor ()
      ensures state == ZERO
    {
      state := ZERO;
    }

    method EncodeSegment(bits: seq<bool>, pattern: Pattern) returns (coded: seq<bool>)
      requires pattern.Valid()
      modifies this
      ensures coded == Coded(bits, pattern, 0, old(state))
      ensures state == TrellisAfter(bits, old(state))
    {
      hide Kept, Pushed;
      coded := [];
      for pos := 0 to |bits|
        invariant coded + Coded(bits[pos..], pattern, pos, state) == Coded(bits, pattern, 0, old(state))
        invariant TrellisAfter(bits[pos..], state) == TrellisAfter(bits, old(state))
      {
        assert bits[pos..][1..] == bits[pos + 1..];
        var kept := KeepLanes(bits[pos], pattern, pos);
        state := Pushed(bits[pos], state);
        coded := coded + kept;
      }
    }

    method KeepLanes(bit: bool, pattern: Pattern, pos: nat) returns (kept: seq<bool>)
      requires pattern.Valid()
      ensures kept == Kept(bit, state, pattern, pos, 0)
    {
      hide Kept, Feedback;
      kept := [];
      for lane := 0 to 3
        invariant kept + Kept(bit, state, pattern, pos, lane) == Kept(bit, state, pattern, pos, 0)
      {
        KeptNext(bit, state, pattern, pos, lane);
        if pattern.Sends(lane, pos) {
          kept := kept + [bit != Feedback(lane, state)];
        }
      }
      KeptNext(bit, state, pattern, pos, 3);
    }
  }

  // ---- What the lanes carry

  /** The three lanes' generators as the masks 11111, 11011 and 10101 over the current bit and the four before it: the
      places back that take part. */
  const MASKS: seq<seq<nat>> := [[0, 1, 2, 3, 4], [0, 1, 3, 4], [0, 2, 4]]

  /** The parity of the five bits up to bit i under a lane's mask. */
  function LaneBit(bits: seq<bool>, i: nat, lane: nat): bool
    requires i < |bits| && lane < 3
  {
    Sum(bits, i, MASKS[lane], |MASKS[lane]|)
  }

  function Recent(bits: seq<bool>, i: nat): State
    requires i < |bits|
  {
    State(Before(bits, i, 1), Before(bits, i, 2), Before(bits, i, 3), Before(bits, i, 4))
  }

  lemma {:induction false} TrellisHolds(bits: seq<bool>, i: nat)
    requires i < |bits|
    ensures TrellisAfter(bits[..i], ZERO) == Recent(bits, i)
    decreases i
  {
    if i > 0 {
      TrellisHolds(bits, i - 1);
      TrellisAppend(bits[..i - 1], [bits[i - 1]], ZERO);
      assert bits[..i] == bits[..i - 1] + [bits[i - 1]];
      assert TrellisAfter([bits[i - 1]][1..], ZERO) == ZERO;
      hide TrellisAfter;
      OneBit(bits[i - 1], TrellisAfter(bits[..i - 1], ZERO));
    }
  }

  lemma OneBit(bit: bool, s: State)
    ensures TrellisAfter([bit], s) == Pushed(bit, s)
  {
    assert [bit][1..] == [];
  }

  lemma FeedbackSums(bits: seq<bool>, i: nat, lane: nat)
    requires i < |bits| && lane < 3
    ensures (bits[i] != Feedback(lane, Recent(bits, i))) == LaneBit(bits, i, lane)
  {
    hide Sum;
    var g := MASKS[lane];
    assert Before(bits, i, 0) == bits[i];
    SumFirst(bits, i, g);
    SumNext(bits, i, g, 1);
    SumNext(bits, i, g, 2);
    if |g| >= 4 {
      SumNext(bits, i, g, 3);
    }
    if |g| == 5 {
      SumNext(bits, i, g, 4);
    }
  }

  /** How many of the lanes below this one are sent at a position. */
  function Lower(pattern: Pattern, pos: nat, lane: nat): nat
    requires pattern.Valid() && lane <= 3
  {
    if lane == 0 then 0 else Lower(pattern, pos, lane - 1) + if pattern.Sends(lane - 1, pos) then 1 else 0
  }

  /** How many bits the n positions from pos on send. */
  function SentOver(pattern: Pattern, pos: nat, n: nat): nat
    requires pattern.Valid()
  {
    if n == 0 then 0 else SentOver(pattern, pos, n - 1) + Lower(pattern, pos + n - 1, 3)
  }

  lemma {:induction false} SentOverFirst(pattern: Pattern, pos: nat, n: nat)
    requires pattern.Valid() && n > 0
    ensures SentOver(pattern, pos, n) == Lower(pattern, pos, 3) + SentOver(pattern, pos + 1, n - 1)
  {
    hide Lower;
    if n > 1 {
      SentOverFirst(pattern, pos, n - 1);
    }
  }

  lemma KeptAt(bit: bool, s: State, pattern: Pattern, pos: nat, lane: nat)
    requires pattern.Valid() && lane < 3
    ensures |Kept(bit, s, pattern, pos, 0)| == Lower(pattern, pos, 3)
    ensures pattern.Sends(lane, pos) ==>
              Lower(pattern, pos, lane) < Lower(pattern, pos, 3)
              && Kept(bit, s, pattern, pos, 0)[Lower(pattern, pos, lane)] == (bit != Feedback(lane, s))
  {
    hide Feedback, Pattern.Sends;
    assert Kept(bit, s, pattern, pos, 3) == [];
    assert |Kept(bit, s, pattern, pos, 2)| == if pattern.Sends(2, pos) then 1 else 0;
    assert Lower(pattern, pos, 1) == if pattern.Sends(0, pos) then 1 else 0;
    assert Lower(pattern, pos, 2) == Lower(pattern, pos, 1) + if pattern.Sends(1, pos) then 1 else 0;
  }

  /** Where a segment's coded bits stand, position by position and lane by lane, and what they are. */
  lemma {:induction false} CodedAt(bits: seq<bool>, pattern: Pattern, pos: nat, s: State, i: nat, lane: nat)
    requires pattern.Valid() && i < |bits| && lane < 3 && pattern.Sends(lane, pos + i)
    ensures var at, coded := SentOver(pattern, pos, i) + Lower(pattern, pos + i, lane), Coded(bits, pattern, pos, s);
            at < |coded| && coded[at] == (bits[i] != Feedback(lane, TrellisAfter(bits[..i], s)))
    decreases |bits|
  {
    hide Kept, Feedback, Pushed, Lower, SentOver;
    KeptAt(bits[0], s, pattern, pos, lane);
    var kept, next := Kept(bits[0], s, pattern, pos, 0), Coded(bits[1..], pattern, pos + 1, Pushed(bits[0], s));
    assert Coded(bits, pattern, pos, s) == kept + next;
    if i == 0 {
      NoneSent(pattern, pos);
      assert bits[..0] == [];
    } else {
      CodedAt(bits[1..], pattern, pos + 1, Pushed(bits[0], s), i - 1, lane);
      SentOverFirst(pattern, pos, i);
      assert bits[..i][1..] == bits[1..][..i - 1];
      assert TrellisAfter(bits[..i], s) == TrellisAfter(bits[1..][..i - 1], Pushed(bits[0], s));
    }
  }

  lemma NoneSent(pattern: Pattern, pos: nat)
    requires pattern.Valid()
    ensures SentOver(pattern, pos, 0) == 0
  {
  }

  /** A segment coded after others sends, for each of its bits and each lane the pattern keeps there, the parity of the
      masked five bits up to it, the others' bits counted. */
  lemma SegmentCarries(before: seq<bool>, bits: seq<bool>, pattern: Pattern, i: nat, lane: nat)
    requires pattern.Valid() && i < |bits| && lane < 3 && pattern.Sends(lane, i)
    ensures var at := SentOver(pattern, 0, i) + Lower(pattern, i, lane);
            var coded := Coded(bits, pattern, 0, TrellisAfter(before, ZERO));
            at < |coded| && coded[at] == LaneBit(before + bits, |before| + i, lane)
  {
    hide Coded, TrellisAfter, Feedback, LaneBit, SentOver, Lower, Pattern.Sends;
    var all := before + bits;
    CodedAt(bits, pattern, 0, TrellisAfter(before, ZERO), i, lane);
    TrellisAppend(before, bits[..i], ZERO);
    assert before + bits[..i] == all[..|before| + i];
    TrellisHolds(all, |before| + i);
    FeedbackSums(all, |before| + i, lane);
  }

  // ---- The receiver's side of the trellis

  function FirstLane(pattern: Pattern, pos: nat, lane: nat): (r: nat)
    requires pattern.Valid() && lane <= 3
    ensures lane <= r <= 3
    ensures r < 3 ==> pattern.Sends(r, pos)
    decreases 3 - lane
  {
    if lane == 3 || pattern.Sends(lane, pos) then lane else FirstLane(pattern, pos, lane + 1)
  }

  function KeptCount(pattern: Pattern, pos: nat): nat
    requires pattern.Valid()
  {
    (if pattern.Sends(0, pos) then 1 else 0) + (if pattern.Sends(1, pos) then 1 else 0)
    + if pattern.Sends(2, pos) then 1 else 0
  }

  /** Reads n bits off a coded stream, each from the first lane kept for it; None when nothing is there to read. */
  function Decoded(coded: seq<bool>, n: nat, pattern: Pattern, pos: nat, s: State): Option<(seq<bool>, seq<bool>)>
    requires pattern.Valid()
    decreases n
  {
    if n == 0 then Some(([], coded)) else
      var lane, count := FirstLane(pattern, pos, 0), KeptCount(pattern, pos);
      if lane == 3 || |coded| < count then None else
        var bit := coded[0] != Feedback(lane, s);
        var rest := Decoded(coded[count..], n - 1, pattern, pos + 1, Pushed(bit, s));
        if rest.None? then None else Some(([bit] + rest.value.0, rest.value.1))
  }

  /** Every position keeps at least one lane. */
  ghost predicate Covers(pattern: Pattern)
    requires pattern.Valid()
  {
    forall c :: 0 <= c < 8 ==> pattern.Sends(0, c) || pattern.Sends(1, c) || pattern.Sends(2, c)
  }

  lemma KeptShape(bit: bool, s: State, pattern: Pattern, pos: nat)
    requires pattern.Valid()
    ensures |Kept(bit, s, pattern, pos, 0)| == KeptCount(pattern, pos)
    ensures FirstLane(pattern, pos, 0) == 3 <==> KeptCount(pattern, pos) == 0
    ensures FirstLane(pattern, pos, 0) < 3 ==>
              Kept(bit, s, pattern, pos, 0)[0] == (bit != Feedback(FirstLane(pattern, pos, 0), s))
  {
    var k2 := Kept(bit, s, pattern, pos, 2);
    assert Kept(bit, s, pattern, pos, 3) == [];
    var k1 := Kept(bit, s, pattern, pos, 1);
    assert FirstLane(pattern, pos, 2) == if pattern.Sends(2, pos) then 2 else 3;
  }

  lemma CoveredColumn(pattern: Pattern, pos: nat)
    requires pattern.Valid() && Covers(pattern)
    ensures KeptCount(pattern, pos) > 0
  {
    var c := pos % 8;
    assert pattern.Sends(0, c) || pattern.Sends(1, c) || pattern.Sends(2, c);
  }

  /** Decoding takes back any coded segment that keeps a lane per bit, from any state, leaving what follows it. */
  lemma {:induction false} DecodeInverts(bits: seq<bool>, pattern: Pattern, pos: nat, s: State, rest: seq<bool>)
    requires pattern.Valid() && Covers(pattern)
    ensures Decoded(Coded(bits, pattern, pos, s) + rest, |bits|, pattern, pos, s) == Some((bits, rest))
    decreases |bits|
  {
    hide Kept, FirstLane, KeptCount, Feedback;
    if bits == [] {
      assert [] + rest == rest;
    } else {
      KeptShape(bits[0], s, pattern, pos);
      var kept := Kept(bits[0], s, pattern, pos, 0);
      var next := Coded(bits[1..], pattern, pos + 1, Pushed(bits[0], s));
      DecodeInverts(bits[1..], pattern, pos + 1, Pushed(bits[0], s), rest);
      CoveredColumn(pattern, pos);
      assert ((kept + next) + rest)[|kept|..] == next + rest;
      assert [bits[0]] + bits[1..] == bits;
    }
  }

  /** A puncture pattern loses no information exactly when every position keeps a lane: the trellis alone never makes
      up for a bit that is not sent. */
  lemma SegmentLosslessIff(pattern: Pattern)
    requires pattern.Valid()
    ensures Covers(pattern) <==>
            forall x: seq<bool>, y: seq<bool>, s: State |
              |x| == |y| && Coded(x, pattern, 0, s) == Coded(y, pattern, 0, s) :: x == y
  {
    if Covers(pattern) {
      forall x: seq<bool>, y: seq<bool>, s: State | |x| == |y| && Coded(x, pattern, 0, s) == Coded(y, pattern, 0, s)
        ensures x == y
      {
        DecodeInverts(x, pattern, 0, s, []);
        DecodeInverts(y, pattern, 0, s, []);
      }
    } else {
      var c :| 0 <= c < 8 && !(pattern.Sends(0, c) || pattern.Sends(1, c) || pattern.Sends(2, c));
      var lead := seq(c, _ => false);
      UnsentBit(lead, pattern, 0, ZERO);
      assert (lead + [false])[c] != (lead + [true])[c];
    }
  }

  lemma {:induction false} UnsentBit(lead: seq<bool>, pattern: Pattern, pos: nat, s: State)
    requires pattern.Valid() && KeptCount(pattern, pos + |lead|) == 0
    ensures Coded(lead + [false], pattern, pos, s) == Coded(lead + [true], pattern, pos, s)
    decreases |lead|
  {
    if lead == [] {
      KeptShape(false, s, pattern, pos);
      KeptShape(true, s, pattern, pos);
      assert (lead + [false])[1..] == [] == (lead + [true])[1..];
    } else {
      UnsentBit(lead[1..], pattern, pos + 1, Pushed(lead[0], s));
      assert (lead + [false])[1..] == lead[1..] + [false] && (lead + [true])[1..] == lead[1..] + [true];
    }
  }

  lemma {:induction false} TrellisAppend(x: seq<bool>, y: seq<bool>, s: State)
    ensures TrellisAfter(x + y, s) == TrellisAfter(y, TrellisAfter(x, s))
    decreases |x|
  {
    if x == [] {
      assert x + y == y;
    } else {
      TrellisAppend(x[1..], y, Pushed(x[0], s));
      assert (x + y)[1..] == x[1..] + y;
    }
  }

  /** Four zero bits empty the trellis, whatever came before. */
  lemma TailEmpties(bits: seq<bool>, s: State)
    ensures TrellisAfter(bits + TAIL, s) == ZERO
  {
    TrellisAppend(bits, TAIL, s);
    assert TAIL[1..][1..] == [false, false];
    assert TAIL[1..][1..][1..] == [false];
  }

  // ---- The speech block

  const CLASS1 := Pattern([
    [true, true, true, true, true, true, true, true],
    [true, false, true, false, true, false, true, false],
    [false, false, false, false, false, false, false, false]])

  const CLASS2 := Pattern([
    [true, true, true, true, true, true, true, true],
    [true, true, true, true, true, true, true, true],
    [true, false, false, false, true, false, false, false]])

  lemma {:induction false} Class1Length(bits: seq<bool>, pos: nat, s: State)
    requires |bits| % 2 == 0 && pos % 2 == 0
    ensures 2 * |Coded(bits, CLASS1, pos, s)| == 3 * |bits|
    decreases |bits|
  {
    hide Kept, KeptCount, FirstLane, Pushed;
    if bits != [] {
      KeptShape(bits[0], s, CLASS1, pos);
      var t := Pushed(bits[0], s);
      KeptShape(bits[1], t, CLASS1, pos + 1);
      Class1Length(bits[1..][1..], pos + 2, Pushed(bits[1], t));
      var rest := Coded(bits[1..], CLASS1, pos + 1, t);
      assert |rest| == KeptCount(CLASS1, pos + 1) + |Coded(bits[1..][1..], CLASS1, pos + 2, Pushed(bits[1], t))|;
      EvenColumn(pos);
    }
  }

  lemma EvenColumn(pos: nat)
    requires pos % 2 == 0
    ensures KeptCount(CLASS1, pos) == 2 && KeptCount(CLASS1, pos + 1) == 1
  {
    assert pos % 8 == 0 || pos % 8 == 2 || pos % 8 == 4 || pos % 8 == 6;
    assert (pos + 1) % 8 == pos % 8 + 1;
  }

  function Class2Sent(pos: nat): nat {
    if pos % 4 == 0 then 3 else 2
  }

  lemma Class2Column(pos: nat)
    ensures KeptCount(CLASS2, pos) == Class2Sent(pos)
  {
    assert pos % 8 == pos % 4 || pos % 8 == pos % 4 + 4;
  }

  /** How many bits are sent before a class 2 position. */
  function Class2Before(pos: nat): nat {
    if pos == 0 then 0 else Class2Before(pos - 1) + Class2Sent(pos - 1)
  }

  lemma {:induction false} Class2Quads(q: nat)
    ensures Class2Before(4 * q) == 9 * q
  {
    if q > 0 {
      Class2Quads(q - 1);
      assert Class2Before(4 * q - 2) == Class2Before(4 * q - 4) + 5;
    }
  }

  lemma {:induction false} Class2Length(bits: seq<bool>, pos: nat, s: State)
    ensures |Coded(bits, CLASS2, pos, s)| + Class2Before(pos) == Class2Before(pos + |bits|)
    decreases |bits|
  {
    hide Kept, KeptCount, FirstLane, Pushed, Class2Sent;
    if bits != [] {
      KeptShape(bits[0], s, CLASS2, pos);
      Class2Column(pos);
      Class2Length(bits[1..], pos + 1, Pushed(bits[0], s));
    }
  }

  function OddSum(bits: seq<bool>): bool {
    if bits == [] then false else bits[0] != OddSum(bits[1..])
  }

  /** The seven check bits b1 to b7 of the class 2 bits, for G(X) = 1 + X^3 + X^7. */
  function SpeechParity(class2: seq<bool>): (r: seq<bool>)
    ensures |r| == 7
  {
    LowBits(Rem(Shl(Number(class2), 7), Pow2(7) + 9, 7), 7)
  }

  /** The class 2 coder's input: the bits, their check, the sum b8 of both and the tail. */
  function Class2Input(class2: seq<bool>): (r: seq<bool>)
    ensures |r| == |class2| + 12
  {
    class2 + SpeechParity(class2) + [OddSum(class2 + SpeechParity(class2))] + TAIL
  }

  function Ones(bits: seq<bool>): nat {
    if bits == [] then 0 else Ones(bits[1..]) + if bits[0] then 1 else 0
  }

  lemma {:induction false} OddSumCounts(bits: seq<bool>)
    ensures OddSum(bits) <==> Ones(bits) % 2 == 1
    decreases |bits|
  {
    if bits != [] {
      OddSumCounts(bits[1..]);
    }
  }

  /** The seven check bits are the digits, the least first, of X^7 C(X) modulo 1 + X^3 + X^7. */
  lemma ParityIsRemainder(class2: seq<bool>)
    ensures Number(SpeechParity(class2)) == Rem(Shl(Number(class2), 7), Pow2(7) + 9, 7)
  {
    hide Rem, Number, LowBits, Shl, Pow2;
    SpeechGenerator();
    RemBelow(Shl(Number(class2), 7), Pow2(7) + 9, 7);
    NumberOfLow(Rem(Shl(Number(class2), 7), Pow2(7) + 9, 7), 7);
  }

  /** What the class 2 coder is fed: the bits themselves, their check, b8 set exactly when those hold an odd number of
      ones, and four zeros. */
  lemma Class2Fed(class2: seq<bool>)
    ensures var r, n := Class2Input(class2), |class2|;
            && r[..n] == class2 && r[n..n + 7] == SpeechParity(class2)
            && (r[n + 7] <==> Ones(r[..n + 7]) % 2 == 1)
            && r[n + 8..] == [false, false, false, false]
  {
    hide SpeechParity, Ones, OddSum;
    var r, n := Class2Input(class2), |class2|;
    OddSumCounts(class2 + SpeechParity(class2));
    assert r[..n + 7] == class2 + SpeechParity(class2);
  }

  // ---- What is sent

  /** Where a coded bit goes: written by lines of 18 and read by columns of 24. */
  function AirPlace(d: nat): nat {
    d % 18 * 24 + d / 18
  }

  /** Coded bit d goes out at its place, summed with the key bit of that place. */
  predicate AirBit(dibits: seq<nat>, seed: nat, d: nat, bit: bool) {
    AirPlace(d) < 2 * |dibits| && SentBit(dibits, AirPlace(d)) == (bit != Key(Seeded(seed), AirPlace(d)))
  }

  /** Class 0 as it is; of class 1 and then class 2, for each bit and each lane its pattern keeps, the parity of the
      masked five bits up to it, the two classes' bits in one stream. */
  ghost predicate CarriesSpeech(dibits: seq<nat>, speech: seq<bool>, seed: nat)
    requires |speech| == 274
  {
    var fed := speech[102..214] + Class2Input(speech[214..]);
    && (forall d :: 0 <= d < 102 ==> AirBit(dibits, seed, d, speech[d]))
    && (forall i, lane :: 0 <= i < 112 && 0 <= lane < 3 && CLASS1.Sends(lane, i) ==>
          AirBit(dibits, seed, 102 + SentOver(CLASS1, 0, i) + Lower(CLASS1, i, lane), LaneBit(fed, i, lane)))
    && (forall i, lane :: 0 <= i < 72 && 0 <= lane < 3 && CLASS2.Sends(lane, i) ==>
          AirBit(dibits, seed, 270 + SentOver(CLASS2, 0, i) + Lower(CLASS2, i, lane), LaneBit(fed, 112 + i, lane)))
  }

  /** The three parts of a coded speech block. */
  ghost predicate SpeechCoded(coded: seq<bool>, speech: seq<bool>)
    requires |speech| == 274
  {
    var class1 := Coded(speech[102..214], CLASS1, 0, ZERO);
    var class2 := Coded(Class2Input(speech[214..]), CLASS2, 0, TrellisAfter(speech[102..214], ZERO));
    |class1| == 168 && |class2| == 162 && coded == speech[..102] + class1 + class2
  }

  lemma SentOnAir(coded: seq<bool>, dibits: seq<nat>, seed: nat, d: nat)
    requires |coded| == 432 && |dibits| == 216 && d < 432
    requires Packed(Scrambled(Transposed(coded, 24, 18), Seeded(seed))) == Ok(dibits)
    ensures AirBit(dibits, seed, d, coded[d])
  {
    hide Transposed, Scrambled, Packed, Seeded, Key, SentBit;
    var turned := Transposed(coded, 24, 18);
    TransposedAt(coded, 24, 18, d / 18, d % 18);
    ScrambledWithKey(turned, Seeded(seed), 0);
    assert StateAfter(Seeded(seed), 0) == Seeded(seed);
    UnpackInverts(Scrambled(turned, Seeded(seed)));
    var place := AirPlace(d);
    assert Unpacked(dibits)[place] == (turned[place] != Key(Seeded(seed), place));
  }

  lemma SpeechCarried(coded: seq<bool>, speech: seq<bool>, dibits: seq<nat>, seed: nat)
    requires |speech| == 274 && SpeechCoded(coded, speech) && |dibits| == 216
    requires Packed(Scrambled(Transposed(coded, 24, 18), Seeded(seed))) == Ok(dibits)
    ensures CarriesSpeech(dibits, speech, seed)
  {
    hide Coded, Packed, Scrambled, Transposed, Seeded, AirBit, LaneBit, SentOver, Lower, TrellisAfter, Class2Input;
    var c1, c2 := speech[102..214], Class2Input(speech[214..]);
    var fed := c1 + c2;
    forall d | 0 <= d < 102 ensures AirBit(dibits, seed, d, speech[d]) {
      SentOnAir(coded, dibits, seed, d);
    }
    forall i, lane | 0 <= i < 112 && 0 <= lane < 3 && CLASS1.Sends(lane, i)
      ensures AirBit(dibits, seed, 102 + SentOver(CLASS1, 0, i) + Lower(CLASS1, i, lane), LaneBit(fed, i, lane))
    {
      FirstCarries(c1, c2, i, lane);
      SentOnAir(coded, dibits, seed, 102 + SentOver(CLASS1, 0, i) + Lower(CLASS1, i, lane));
    }
    forall i, lane | 0 <= i < 72 && 0 <= lane < 3 && CLASS2.Sends(lane, i)
      ensures AirBit(dibits, seed, 270 + SentOver(CLASS2, 0, i) + Lower(CLASS2, i, lane), LaneBit(fed, 112 + i, lane))
    {
      SegmentCarries(c1, c2, CLASS2, i, lane);
      SentOnAir(coded, dibits, seed, 270 + SentOver(CLASS2, 0, i) + Lower(CLASS2, i, lane));
    }
  }

  lemma FirstCarries(bits: seq<bool>, after: seq<bool>, i: nat, lane: nat)
    requires i < |bits| && lane < 3 && CLASS1.Sends(lane, i)
    ensures var at := SentOver(CLASS1, 0, i) + Lower(CLASS1, i, lane);
            var coded := Coded(bits, CLASS1, 0, ZERO);
            at < |coded| && coded[at] == LaneBit(bits + after, i, lane)
  {
    hide Coded, SentOver, Lower, Sum;
    SegmentCarries([], bits, CLASS1, i, lane);
    assert [] + bits == bits;
    SumAppended(bits, after, i, MASKS[lane], |MASKS[lane]|);
  }

  lemma {:induction false} SumAppended(bits: seq<bool>, after: seq<bool>, i: nat, powers: seq<nat>, n: nat)
    requires i < |bits| && n <= |powers|
    ensures Sum(bits + after, i, powers, n) == Sum(bits, i, powers, n)
    decreases n
  {
    if n > 0 {
      SumAppended(bits, after, i, powers, n - 1);
    }
  }

  /** What a receiver makes of the two halves: descramble both as one block, deinterleave, keep class 0, decode class
      1 and then class 2 from the state class 1 leaves. */
  function ReceivedSpeech(first: seq<nat>, second: seq<nat>, seed: nat): Option<seq<bool>>
    requires |first| == |second| == 108
  {
    hide Decoded, Transposed, Scrambled, Unpacked, TrellisAfter, Seeded;
    var coded := Transposed(Scrambled(Unpacked(first + second), Seeded(seed)), 18, 24);
    var class1 := Decoded(coded[102..], 112, CLASS1, 0, ZERO);
    if class1.None? then None else
      var class2 := Decoded(class1.value.1, 72, CLASS2, 0, TrellisAfter(class1.value.0, ZERO));
      if class2.None? then None else Some(coded[..102] + class1.value.0 + class2.value.0)
  }

  lemma SpeechDecodes(coded: seq<bool>, speech: seq<bool>, first: seq<nat>, second: seq<nat>, seed: nat)
    requires |speech| == 274 && SpeechCoded(coded, speech) && |first| == |second| == 108
    requires Packed(Scrambled(Transposed(coded, 24, 18), Seeded(seed))) == Ok(first + second)
    ensures ReceivedSpeech(first, second, seed) == Some(speech[..214] + Class2Input(speech[214..]))
  {
    hide Coded, TrellisAfter, Decoded, Transposed, Scrambled, Packed, Unpacked, Seeded, Class2Input;
    var class1, class2 := Coded(speech[102..214], CLASS1, 0, ZERO), coded[270..];
    var interleaved := Transposed(coded, 24, 18);
    var middle := TrellisAfter(speech[102..214], ZERO);
    UnpackInverts(Scrambled(interleaved, Seeded(seed)));
    ScrambleInverts(interleaved, Seeded(seed));
    TransposeInverts(coded, 24, 18);
    assert coded[102..] == class1 + class2 && coded[..102] == speech[..102];
    DecodeInverts(speech[102..214], CLASS1, 0, ZERO, class2);
    DecodeInverts(Class2Input(speech[214..]), CLASS2, 0, middle, []);
    assert class2 + [] == class2;
    assert speech[..102] + speech[102..214] == speech[..214];
  }

  /** tetra_tch_fs_dibits, for any 274 speech bits and any seed: the two asserted facts hold, and the receiver gets
      every speech bit back, with the class 2 check it expects. */
  method TetraTchFsDibits(speech: seq<bool>, seed: nat) returns (first: seq<nat>, second: seq<nat>)
    requires |speech| == 274
    ensures |first| == |second| == 108
    ensures ReceivedSpeech(first, second, seed) == Some(speech[..214] + Class2Input(speech[214..]))
    ensures CarriesSpeech(first + second, speech, seed)
  {
    hide Coded, TrellisAfter, Decoded, Transposed, Scrambled, Packed, Unpacked, Rem, Seeded, OddSum, CarriesSpeech,
         ReceivedSpeech;
    var encoder := new SegmentEncoder();
    var class1 := encoder.EncodeSegment(speech[102..214], CLASS1);
    ghost var middle := encoder.state;
    SpeechGenerator();
    var crc := SpeechCrc(speech[214..], 7, 9);
    var parity := OddSum(speech[214..] + crc);
    var class2 := encoder.EncodeSegment(speech[214..] + crc + [parity] + TAIL, CLASS2);
    var deinterleaved := speech[..102] + class1 + class2;
    Class1Length(speech[102..214], 0, ZERO);
    Class2Length(Class2Input(speech[214..]), 0, middle);
    Class2Quads(18);
    TailEmpties(speech[214..] + crc + [parity], middle);
    assert |deinterleaved| == 432 && encoder.state == ZERO;
    var interleaved := InterleaveMatrix(deinterleaved, 24, 18);
    var scrambled := TetraScramble(interleaved, seed);
    var packed := PackDibits(scrambled);
    first, second := packed.value[..108], packed.value[108..];
    assert first + second == packed.value;
    SpeechDecodes(deinterleaved, speech, first, second, seed);
    SpeechCarried(deinterleaved, speech, first + second, seed);
  }

  lemma SpeechGenerator()
    ensures 9 < Pow2(7) && Generator(Pow2(7) + 9, 7)
  {
    assert Pow2(4) == 16;
    Pow2Monotone(4, 7);
  }
}
