/** The two interleavers of TETRA channel coding (EN 300 392-2 clause 8.2.4, EN 300 395-2 clause 5.5.3). */
module Interleaving {

  function Gcd(a: nat, b: nat): nat
    decreases b
  {
    if b == 0 then a else Gcd(b, a % b)
  }

  lemma {:induction false} Bezout(a: nat, b: nat) returns (x: int, y: int)
    ensures x * a + y * b == Gcd(a, b)
    decreases b
  {
    if b == 0 {
      x, y := 1, 0;
    } else {
      var u, v := Bezout(b, a % b);
      x, y := v, u - v * (a / b);
      calc {
        x * a + y * b;
        v * a + u * b - v * (a / b) * b;
        v * (a - (a / b) * b) + u * b;
        v * (a % b) + u * b;
      }
    }
  }

  lemma {:induction false} GcdDivides(a: nat, b: nat) returns (p: nat, q: nat)
    requires a > 0 || b > 0
    ensures Gcd(a, b) > 0 && a == p * Gcd(a, b) && b == q * Gcd(a, b)
    decreases b
  {
    if b == 0 {
      p, q := 1, 0;
    } else {
      var s, t := GcdDivides(b, a % b);
      var g := Gcd(a, b);
      p, q := (a / b) * s + t, s;
      calc {
        a;
        (a / b) * b + a % b;
        (a / b) * (s * g) + t * g;
        p * g;
      }
    }
  }

  /** Where the i-th punctured bit goes, i counting from 1. */
  function Place(a: nat, i: nat, n: nat): (k: nat)
    requires n > 0
    ensures k < n
  {
    a * i % n
  }

  /** The first i writes of the block interleaver, in order. */
  function Interleaved(p: seq<bool>, a: nat, i: nat): (r: seq<bool>)
    requires i <= |p|
    ensures |r| == |p|
  {
    if i == 0 then seq(|p|, _ => false) else Interleaved(p, a, i - 1)[Place(a, i, |p|) := p[i - 1]]
  }

  function Deinterleaved(r: seq<bool>, a: nat): (p: seq<bool>)
    ensures |p| == |r|
  {
    seq(|r|, i requires 0 <= i < |r| => r[Place(a, i + 1, |r|)])
  }

  /** The places bit i and any later bit are written to differ. */
  ghost predicate Final(a: nat, i: nat, n: nat)
    requires n > 0
  {
    forall j :: i < j <= n ==> a * j % n != a * i % n
  }

  /** Bit i, counting from 1, lands at a * i modulo the length, where no later bit is written over it; a cell nothing is
      written to stays 0. */
  lemma {:induction false} LandsAt(p: seq<bool>, a: nat, n: nat)
    requires n <= |p| && |p| > 0
    ensures forall i :: 1 <= i <= n && (forall j :: i < j <= n ==> a * j % |p| != a * i % |p|) ==>
              Interleaved(p, a, n)[a * i % |p|] == p[i - 1]
    ensures forall k :: 0 <= k < |p| && (forall i :: 1 <= i <= n ==> a * i % |p| != k) ==> !Interleaved(p, a, n)[k]
    decreases n
  {
    if n > 0 {
      LandsAt(p, a, n - 1);
      var before := Interleaved(p, a, n - 1);
      assert Interleaved(p, a, n) == before[a * n % |p| := p[n - 1]];
      hide Interleaved;
      forall i | 1 <= i <= n && (forall j :: i < j <= n ==> a * j % |p| != a * i % |p|)
        ensures Interleaved(p, a, n)[a * i % |p|] == p[i - 1]
      {
        if i < n {
          assert a * n % |p| != a * i % |p|;
        }
      }
    }
  }

  method Interleave(p: seq<bool>, a: nat) returns (r: seq<bool>)
    ensures r == Interleaved(p, a, |p|)
    ensures |r| == |p|
    ensures forall i :: 1 <= i <= |p| && Final(a, i, |p|) ==> r[a * i % |p|] == p[i - 1]
    ensures forall k :: 0 <= k < |p| && (forall i :: 1 <= i <= |p| ==> a * i % |p| != k) ==> !r[k]
  {
    if |p| > 0 {
      LandsAt(p, a, |p|);
    }
    var cells := new bool[|p|](_ => false);
    assert cells[..] == Interleaved(p, a, 0);
    for i := 1 to |p| + 1
      invariant cells[..] == Interleaved(p, a, i - 1)
    {
      cells[Place(a, i, |p|)] := p[i - 1];
    }
    r := cells[..];
  }

  lemma MulOrder(a: int, b: int, n: nat)
    ensures a <= b ==> a * n <= b * n
  {
  }

  lemma MultipleBetween(t: int, n: nat, e: int)
    requires e == t * n && 0 - n < e < n
    ensures e == 0 && t == 0
  {
    MulOrder(1, t, n);
    MulOrder(t, -1, n);
  }

  lemma Combine(x: int, y: int, a: int, n: int, e: int, t: int)
    requires x * a + y * n == 1 && a * e == n * t
    ensures e == (x * t + y * e) * n
  {
    assert (x * a) * e == x * (a * e);
    assert (y * n) * e == (y * e) * n;
    assert x * (n * t) == (x * t) * n;
    assert (x * a + y * n) * e == (x * a) * e + (y * n) * e;
  }

  lemma Divided(x: nat, n: nat)
    requires n > 0
    ensures x == n * (x / n) + x % n
  {
  }

  /** Places that agree are a whole number of lengths apart. */
  lemma SamePlace(a: nat, i: nat, j: nat, n: nat) returns (t: int)
    requires n > 0 && Place(a, i, n) == Place(a, j, n)
    ensures a * (i - j) == n * t
  {
    var u, v: nat := a * i, a * j;
    Divided(u, n);
    Divided(v, n);
    t := u / n - v / n;
    Spread(a, i, j);
    Spread(n, u / n, v / n);
  }

  lemma Spread(a: int, i: int, j: int)
    ensures a * (i - j) == a * i - a * j
  {
  }

  /** A step coprime to the length never lands on one place twice. */
  lemma PlacesDistinct(a: nat, i: nat, j: nat, n: nat)
    requires n > 0 && Gcd(a, n) == 1
    requires 1 <= i <= n && 1 <= j <= n && Place(a, i, n) == Place(a, j, n)
    ensures i == j
  {
    hide *;
    var x, y := Bezout(a, n);
    var t := SamePlace(a, i, j, n);
    Combine(x, y, a, n, i - j, t);
    MultipleBetween(x * t + y * (i - j), n, i - j);
  }

  /** After i writes, the first i bits sit in their places. */
  lemma {:induction false} InPlace(p: seq<bool>, a: nat, i: nat, j: nat)
    requires |p| > 0 && Gcd(a, |p|) == 1 && 1 <= j <= i <= |p|
    ensures Interleaved(p, a, i)[Place(a, j, |p|)] == p[j - 1]
    decreases i
  {
    if j < i {
      InPlace(p, a, i - 1, j);
      if Place(a, j, |p|) == Place(a, i, |p|) {
        PlacesDistinct(a, j, i, |p|);
      }
    }
  }

  lemma InterleaveInverts(p: seq<bool>, a: nat)
    requires |p| > 0 ==> Gcd(a, |p|) == 1
    ensures Deinterleaved(Interleaved(p, a, |p|), a) == p
  {
    hide Interleaved, Gcd, Place;
    forall k | 0 <= k < |p| ensures Deinterleaved(Interleaved(p, a, |p|), a)[k] == p[k] {
      InPlace(p, a, |p|, k + 1);
    }
  }

  /** With a common factor, the last bit shares its place with an earlier one. */
  lemma PlacesCollide(a: nat, n: nat) returns (i: nat)
    requires n > 0 && Gcd(a, n) > 1
    ensures 1 <= i < n && Place(a, i, n) == Place(a, n, n)
  {
    var p, q := GcdDivides(a, n);
    var g := Gcd(a, n);
    i := q;
    MulOrder(2, g, q);
    assert q * g == g * q;
    assert a * q == p * n by {
      assert p * g * q == p * (q * g);
    }
    MultipleIsZero(p, n);
    MultipleIsZero(a, n);
  }

  lemma MultipleIsZero(p: nat, n: nat)
    requires n > 0
    ensures p * n % n == 0
  {
    var w := p * n;
    var e := w % n;
    assert e == w - (w / n) * n;
    assert (p - w / n) * n == p * n - (w / n) * n;
    MultipleBetween(p - w / n, n, e);
  }

  /** The block interleaver loses nothing, whatever it is given, exactly when its step is coprime to the length. */
  lemma InterleaverInvertibleIff(a: nat, n: nat)
    requires n > 0
    ensures (forall p: seq<bool> | |p| == n :: Deinterleaved(Interleaved(p, a, n), a) == p) <==> Gcd(a, n) == 1
  {
    hide Interleaved, Place;
    if Gcd(a, n) == 1 {
      forall p: seq<bool> | |p| == n ensures Deinterleaved(Interleaved(p, a, n), a) == p {
        InterleaveInverts(p, a);
      }
    } else {
      var x, y := GcdDivides(a, n);
      var i := PlacesCollide(a, n);
      var p := seq(n, k => k == n - 1);
      var back := Deinterleaved(Interleaved(p, a, n), a);
      assert back[i - 1] == back[n - 1] && p[i - 1] != p[n - 1];
    }
  }

  // ---- The speech interleaver: written line by line, read column by column.

  /** Where the k-th bit out comes from. */
  function Cell(k: nat, lines: nat, columns: nat): (c: nat)
    requires k < lines * columns
    ensures lines > 0 && c == k % lines * columns + k / lines < lines * columns
  {
    CellInRange(k, lines, columns);
    var line: nat, column: nat := k % lines, k / lines;
    line * columns + column
  }

  function Transposed(p: seq<bool>, lines: nat, columns: nat): (r: seq<bool>)
    requires |p| == lines * columns
    ensures |r| == |p|
  {
    seq(|p|, k requires 0 <= k < |p| => p[Cell(k, lines, columns)])
  }

  lemma CellInRange(k: nat, lines: nat, columns: nat)
    requires k < lines * columns
    ensures lines > 0 && k / lines < columns && k % lines * columns + k / lines < lines * columns
  {
    if lines > 0 {
      MulOrder(columns, k / lines, lines);
      MulOrder(k % lines, lines - 1, columns);
    }
  }

  lemma CellOf(line: nat, column: nat, lines: nat, columns: nat)
    requires line < lines && column < columns
    ensures var k := column * lines + line;
            k < lines * columns && k % lines == line && k / lines == column
    ensures line * columns + column < lines * columns
  {
    MulOrder(column, columns - 1, lines);
    MulOrder(line, lines - 1, columns);
    var k := column * lines + line;
    assert (k / lines - column) * lines == (k / lines) * lines - column * lines;
    MultipleBetween(k / lines - column, lines, line - k % lines);
  }

  lemma TransposedAt(p: seq<bool>, lines: nat, columns: nat, line: nat, column: nat)
    requires |p| == lines * columns && line < lines && column < columns
    ensures column * lines + line < |p| && line * columns + column < |p|
    ensures Transposed(p, lines, columns)[column * lines + line] == p[line * columns + column]
  {
    CellOf(line, column, lines, columns);
  }

  /** The bit written by columns at this line and column is the one read by lines there. */
  predicate Turned(p: seq<bool>, r: seq<bool>, lines: nat, columns: nat, line: nat, column: nat) {
    && column * lines + line < |r| && line * columns + column < |p|
    && r[column * lines + line] == p[line * columns + column]
  }

  lemma AllTurned(p: seq<bool>, lines: nat, columns: nat)
    requires |p| == lines * columns
    ensures var r := Transposed(p, lines, columns);
            forall line, column | 0 <= line < lines && 0 <= column < columns ::
              Turned(p, r, lines, columns, line, column)
  {
    hide Transposed;
    forall line, column | 0 <= line < lines && 0 <= column < columns
      ensures Turned(p, Transposed(p, lines, columns), lines, columns, line, column)
    {
      TransposedAt(p, lines, columns, line, column);
    }
  }

  method InterleaveMatrix(p: seq<bool>, lines: nat, columns: nat) returns (r: seq<bool>)
    requires |p| == lines * columns
    ensures r == Transposed(p, lines, columns)
    ensures forall line, column | 0 <= line < lines && 0 <= column < columns ::
              Turned(p, r, lines, columns, line, column)
  {
    hide Transposed, Turned;
    ghost var wanted := Transposed(p, lines, columns);
    var cells := new bool[|p|](_ => false);
    for column := 0 to columns
      invariant forall k :: 0 <= k < column * lines && k < |p| ==> cells[k] == wanted[k]
    {
      for line := 0 to lines
        invariant forall k :: 0 <= k < column * lines + line && k < |p| ==> cells[k] == wanted[k]
      {
        TransposedAt(p, lines, columns, line, column);
        cells[column * lines + line] := p[line * columns + column];
      }
      assert (column + 1) * lines == column * lines + lines;
    }
    r := cells[..];
    AllTurned(p, lines, columns);
  }

  lemma CellInverts(k: nat, lines: nat, columns: nat)
    requires k < columns * lines == lines * columns
    ensures Cell(Cell(k, columns, lines), lines, columns) == k
  {
    CellInRange(k, columns, lines);
    CellOf(k / columns, k % columns, lines, columns);
    assert k == k / columns * columns + k % columns;
  }

  /** Reading back with lines and columns exchanged undoes it: the matrix interleaver is a bijection. */
  lemma TransposeInverts(p: seq<bool>, lines: nat, columns: nat)
    requires |p| == lines * columns == columns * lines
    ensures Transposed(Transposed(p, lines, columns), columns, lines) == p
  {
    hide Cell;
    forall k | 0 <= k < |p| ensures Transposed(Transposed(p, lines, columns), columns, lines)[k] == p[k] {
      CellInverts(k, lines, columns);
    }
  }
}
