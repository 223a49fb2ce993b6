/** The 64-bit FNV-1a fingerprint of a committed event row: the bytes a row puts into it, and what the hash keeps
    apart. */
module Fingerprint {
  import opened Bits

  type byte = b: nat | b < 256
  const MODULUS: nat := 0x1_0000_0000_0000_0000
  type word = h: nat | h < MODULUS

  const PRIME: nat := 1099511628211
  const INVERSE: nat := 14886173955864302971 // PRIME * INVERSE = 1 modulo 2^64
  const BASIS: word := 14695981039346656037

  lemma XorIsWord(h: word, b: byte)
    ensures Xor(h, b) < MODULUS
  {
    WordPower();
    XorBelow(h, b, 64);
  }

  lemma WordPower()
    ensures Pow2(64) == MODULUS
  {
    assert Pow2(16) == 0x1_0000 by {
      assert Pow2(8) == 256;
    }
    Pow2Sum(16, 16);
    Pow2Sum(32, 32);
  }

  /** fnv1a_byte. */
  function Step(h: word, b: byte): word {
    XorIsWord(h, b);
    Xor(h, b) * PRIME % MODULUS
  }

  /** The state a step came from. */
  function Unstep(h: word, b: byte): word {
    XorIsWord(h * INVERSE % MODULUS, b);
    Xor(h * INVERSE % MODULUS, b)
  }

  lemma PrimeInverts(x: word)
    ensures x * PRIME % MODULUS * INVERSE % MODULUS == x
    ensures x * INVERSE % MODULUS * PRIME % MODULUS == x
  {
    assert PRIME * INVERSE == 1 + 887285111055 * MODULUS;
    var k, r := x * PRIME / MODULUS, x * PRIME % MODULUS;
    assert r == x * PRIME - k * MODULUS;
    assert r * INVERSE == x + (x * 887285111055 - k * INVERSE) * MODULUS;
    Reduces(x, x * 887285111055 - k * INVERSE);
    var j, s := x * INVERSE / MODULUS, x * INVERSE % MODULUS;
    assert s == x * INVERSE - j * MODULUS;
    assert s * PRIME == x + (x * 887285111055 - j * PRIME) * MODULUS;
    Reduces(x, x * 887285111055 - j * PRIME);
  }

  lemma Reduces(x: word, n: int)
    ensures (x + n * MODULUS) % MODULUS == x
  {
  }

  /** For a fixed byte a step is a bijection of the 64-bit states. */
  lemma StepBijective(h: word, b: byte)
    ensures Unstep(Step(h, b), b) == h && Step(Unstep(h, b), b) == h
  {
    hide Xor;
    XorIsWord(h, b);
    PrimeInverts(Xor(h, b));
    XorCancels(h, b);
    PrimeInverts(h);
    XorCancels(h * INVERSE % MODULUS, b);
  }

  /** From a fixed state a step keeps different bytes apart. */
  lemma StepInjectiveInByte(h: word, a: byte, b: byte)
    requires Step(h, a) == Step(h, b)
    ensures a == b
  {
    hide Xor;
    XorIsWord(h, a);
    XorIsWord(h, b);
    PrimeInverts(Xor(h, a));
    PrimeInverts(Xor(h, b));
    XorCommutes(h, a);
    XorCommutes(h, b);
    XorInjective(a, b, h);
  }

  function Hash(h: word, bytes: seq<byte>): word {
    if bytes == [] then h else Step(Hash(h, bytes[..|bytes| - 1]), bytes[|bytes| - 1])
  }

  lemma {:induction false} HashAppend(h: word, x: seq<byte>, y: seq<byte>)
    ensures Hash(h, x + y) == Hash(Hash(h, x), y)
    decreases |y|
  {
    if y == [] {
      assert x + y == x;
    } else {
      HashAppend(h, x, y[..|y| - 1]);
      assert (x + y)[..|x + y| - 1] == x + y[..|y| - 1];
    }
  }

  lemma {:induction false} HashKeepsApart(h: word, k: word, bytes: seq<byte>)
    requires h != k
    ensures Hash(h, bytes) != Hash(k, bytes)
    decreases |bytes|
  {
    if bytes != [] {
      var n := |bytes| - 1;
      HashKeepsApart(h, k, bytes[..n]);
      StepBijective(Hash(h, bytes[..n]), bytes[n]);
      StepBijective(Hash(k, bytes[..n]), bytes[n]);
    }
  }

  /** Two streams of any length that differ in exactly one byte never share a fingerprint. */
  lemma OneByteChangesHash(h: word, x: seq<byte>, y: seq<byte>, at: nat)
    requires |x| == |y| && at < |x| && x[at] != y[at]
    requires forall i :: 0 <= i < |x| && i != at ==> x[i] == y[i]
    ensures Hash(h, x) != Hash(h, y)
  {
    hide Step, Hash;
    var head, tail := x[..at], x[at + 1..];
    assert x == head + [x[at]] + tail && y == head + [y[at]] + tail;
    HashAppend(h, head + [x[at]], tail);
    HashAppend(h, head + [y[at]], tail);
    HashLast(h, head, x[at]);
    HashLast(h, head, y[at]);
    if Hash(h, head + [x[at]]) == Hash(h, head + [y[at]]) {
      StepInjectiveInByte(Hash(h, head), x[at], y[at]);
    }
    HashKeepsApart(Hash(h, head + [x[at]]), Hash(h, head + [y[at]]), tail);
  }

  lemma HashLast(h: word, head: seq<byte>, b: byte)
    ensures Hash(h, head + [b]) == Step(Hash(h, head), b)
  {
    assert (head + [b])[..|head + [b]| - 1] == head;
  }

  // ---- What a row puts into the stream

  /** A scalar, a single byte, or a fixed character field of a given capacity. */
  datatype Field = Scalar(value: word) | Octet(value8: byte) | Text(chars: seq<byte>)

  function ScalarBytes(v: nat, n: nat): (s: seq<byte>)
    ensures |s| == n
  {
    if n == 0 then [] else [v % 256] + ScalarBytes(v / 256, n - 1)
  }

  /** Up to the terminator, counted, or the end of the field. */
  function TextBytes(chars: seq<byte>): (s: seq<byte>)
    ensures |s| <= |chars|
  {
    if chars == [] then [] else if chars[0] == 0 then [0] else [chars[0]] + TextBytes(chars[1..])
  }

  function FieldBytes(f: Field): seq<byte> {
    match f
    case Scalar(v) => ScalarBytes(v, 8)
    case Octet(b) => [b]
    case Text(chars) => TextBytes(chars)
  }

  function RowBytes(row: seq<Field>): seq<byte> {
    if row == [] then [] else FieldBytes(row[0]) + RowBytes(row[1..])
  }

  /** The same field of two rows: same kind, and same capacity for text. */
  predicate SameShape(f: Field, g: Field) {
    f.Scalar? == g.Scalar? && f.Octet? == g.Octet? && (f.Text? && g.Text? ==> |f.chars| == |g.chars|)
  }

  /** What a client sees of a field: text only up to its terminator. */
  predicate SameSeen(f: Field, g: Field) {
    if f.Text? && g.Text? then TextBytes(f.chars) == TextBytes(g.chars) else f == g
  }

  function Pow256(n: nat): nat {
    if n == 0 then 1 else 256 * Pow256(n - 1)
  }

  lemma EightBytes()
    ensures Pow256(8) == MODULUS
  {
    assert Pow256(4) == 0x1_0000_0000;
  }

  lemma {:induction false} ScalarBytesInjective(v: nat, w: nat, n: nat, x: seq<byte>, y: seq<byte>)
    requires v < Pow256(n) && w < Pow256(n) && ScalarBytes(v, n) + x == ScalarBytes(w, n) + y
    ensures v == w && x == y
    decreases n
  {
    var a, b := ScalarBytes(v, n) + x, ScalarBytes(w, n) + y;
    if n == 0 {
      assert a == x && b == y;
    } else {
      assert a[0] == v % 256 && b[0] == w % 256;
      assert a[1..] == ScalarBytes(v / 256, n - 1) + x && b[1..] == ScalarBytes(w / 256, n - 1) + y;
      ScalarBytesInjective(v / 256, w / 256, n - 1, x, y);
    }
  }

  lemma {:induction false} TextBytesDelimited(s: seq<byte>, t: seq<byte>, x: seq<byte>, y: seq<byte>)
    requires |s| == |t| && TextBytes(s) + x == TextBytes(t) + y
    ensures TextBytes(s) == TextBytes(t) && x == y
    decreases |s|
  {
    var a, b := TextBytes(s) + x, TextBytes(t) + y;
    if s == [] {
      assert a == x && b == y;
    } else {
      assert a[0] == s[0] && b[0] == t[0];
      if s[0] == 0 {
        assert a[1..] == x && b[1..] == y;
      } else {
        assert a[1..] == TextBytes(s[1..]) + x && b[1..] == TextBytes(t[1..]) + y;
        TextBytesDelimited(s[1..], t[1..], x, y);
      }
    }
  }

  lemma FieldBytesDelimited(f: Field, g: Field, x: seq<byte>, y: seq<byte>)
    requires SameShape(f, g) && FieldBytes(f) + x == FieldBytes(g) + y
    ensures SameSeen(f, g) && x == y
  {
    match (f, g)
    case (Scalar(v), Scalar(w)) =>
      EightBytes();
      ScalarBytesInjective(v, w, 8, x, y);
    case (Octet(v), Octet(w)) =>
      assert ([v] + x)[1..] == x && ([w] + y)[1..] == y;
      assert ([v] + x)[0] == v && ([w] + y)[0] == w;
    case (Text(s), Text(t)) => TextBytesDelimited(s, t, x, y);
  }

  /** Two rows of one layout put the same bytes into the hash exactly when a client sees the same of every field:
      no two fields can trade bytes, and nothing past a terminator counts. */
  lemma {:induction false} RowBytesExact(row: seq<Field>, other: seq<Field>)
    requires |row| == |other| && forall i :: 0 <= i < |row| ==> SameShape(row[i], other[i])
    ensures RowBytes(row) == RowBytes(other) <==> forall i :: 0 <= i < |row| ==> SameSeen(row[i], other[i])
    decreases |row|
  {
    if row != [] {
      var x, y := RowBytes(row[1..]), RowBytes(other[1..]);
      RowBytesExact(row[1..], other[1..]);
      if RowBytes(row) == RowBytes(other) {
        FieldBytesDelimited(row[0], other[0], x, y);
        forall i | 0 <= i < |row| ensures SameSeen(row[i], other[i]) {
          if i > 0 {
            assert row[i] == row[1..][i - 1] && other[i] == other[1..][i - 1];
          }
        }
      }
      if forall i :: 0 <= i < |row| ==> SameSeen(row[i], other[i]) {
        assert SameSeen(row[0], other[0]);
        forall i | 0 <= i < |row| - 1 ensures SameSeen(row[1..][i], other[1..][i]) {
          assert SameSeen(row[i + 1], other[i + 1]);
        }
      }
    }
  }

  // ---- The hash loops

  method Fnv1aU64(h: word, v: word) returns (r: word)
    ensures r == Hash(h, ScalarBytes(v, 8))
  {
    hide Step;
    r := h;
    var rest: nat := v;
    for i := 0 to 8
      invariant Hash(r, ScalarBytes(rest, 8 - i)) == Hash(h, ScalarBytes(v, 8))
    {
      HashFirst(r, ScalarBytes(rest, 8 - i));
      assert ScalarBytes(rest, 8 - i)[1..] == ScalarBytes(rest / 256, 8 - (i + 1));
      r := Step(r, rest % 256);
      rest := rest / 256;
    }
  }

  lemma HashFirst(h: word, bytes: seq<byte>)
    requires bytes != []
    ensures Hash(h, bytes) == Hash(Step(h, bytes[0]), bytes[1..])
  {
    hide Step;
    HashAppend(h, [bytes[0]], bytes[1..]);
    assert [bytes[0]] + bytes[1..] == bytes;
    HashLast(h, [], bytes[0]);
    assert [] + [bytes[0]] == [bytes[0]];
  }

  method Fnv1aStr(h: word, chars: seq<byte>) returns (r: word)
    ensures r == Hash(h, TextBytes(chars))
  {
    hide Step;
    r := h;
    for i := 0 to |chars|
      invariant Hash(r, TextBytes(chars[i..])) == Hash(h, TextBytes(chars))
    {
      var left := TextBytes(chars[i..]);
      HashFirst(r, left);
      r := Step(r, chars[i]);
      if chars[i] == 0 {
        assert left[1..] == [];
        return;
      }
      assert chars[i..][1..] == chars[i + 1..];
      assert left[1..] == TextBytes(chars[i + 1..]);
    }
  }

  /** row_fingerprint, over a row's fields in the order it hashes them. */
  method RowFingerprint(row: seq<Field>) returns (r: word)
    ensures r == Hash(BASIS, RowBytes(row))
  {
    hide Step, FieldBytes;
    r := BASIS;
    for i := 0 to |row|
      invariant Hash(r, RowBytes(row[i..])) == Hash(BASIS, RowBytes(row))
    {
      assert row[i..][1..] == row[i + 1..];
      HashAppend(r, FieldBytes(row[i]), RowBytes(row[i + 1..]));
      r := HashField(r, row[i]);
    }
  }

  method HashField(h: word, f: Field) returns (r: word)
    ensures r == Hash(h, FieldBytes(f))
  {
    match f
    case Scalar(v) => r := Fnv1aU64(h, v);
    case Octet(b) =>
      HashFirst(h, [b]);
      r := Step(h, b);
    case Text(chars) => r := Fnv1aStr(h, chars);
  }
}
