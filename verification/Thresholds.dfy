/** Choosing squelch thresholds on a grid: window histograms, the 2-D prefix sums that count every threshold pair at
    once, and the search over what all plans accept. */
module Thresholds {

  datatype Window = Window(x: real, y: real)

  /** Increasing edges, as np.arange gives them. */
  ghost predicate Edges(e: seq<real>) {
    |e| > 0 && forall i, j :: 0 <= i < j < |e| ==> e[i] < e[j]
  }

  // ---- Bins

  /** np.searchsorted(e, v, side="right"): how many edges are at or below v. */
  function EdgesAtOrBelow(e: seq<real>, v: real): (k: nat)
    ensures k <= |e|
  {
    if e == [] || e[0] > v then 0 else 1 + EdgesAtOrBelow(e[1..], v)
  }

  /** The bin of a value, with the end bins open. */
  function Bin(e: seq<real>, v: real): (b: nat)
    requires |e| > 0
    ensures b < |e|
  {
    var k := EdgesAtOrBelow(e, v);
    if k == 0 then 0 else k - 1
  }

  /** v is under threshold i; the threshold past the last edge has every value under it. */
  predicate Under(e: seq<real>, i: nat, v: real)
    requires i <= |e|
  {
    i == |e| || v < e[i]
  }

  lemma {:induction false} EdgesSplit(e: seq<real>, v: real, i: nat)
    requires Edges(e) && i < |e|
    ensures e[i] <= v <==> i < EdgesAtOrBelow(e, v)
    decreases |e|
  {
    if e[0] > v {
      assert i > 0 ==> e[0] < e[i];
    } else if i > 0 {
      EdgesSplit(e[1..], v, i - 1);
    }
  }

  /** A value is under a threshold exactly when its bin is, but for the first edge, which no bin is under. */
  lemma BinUnder(e: seq<real>, v: real, i: nat)
    requires Edges(e) && i <= |e|
    ensures Bin(e, v) < i <==> i > 0 && Under(e, i, v)
  {
    if 0 < i < |e| {
      EdgesSplit(e, v, i);
    }
  }

  // ---- Counting windows

  function Count(ws: seq<Window>, p: Window -> bool): nat {
    if ws == [] then 0 else Count(ws[..|ws| - 1], p) + if p(ws[|ws| - 1]) then 1 else 0
  }

  lemma {:induction false} CountSame(ws: seq<Window>, p: Window -> bool, q: Window -> bool)
    requires forall k :: 0 <= k < |ws| ==> (p(ws[k]) <==> q(ws[k]))
    ensures Count(ws, p) == Count(ws, q)
    decreases |ws|
  {
    if ws != [] {
      CountSame(ws[..|ws| - 1], p, q);
    }
  }

  lemma {:induction false} CountRest(ws: seq<Window>, p: Window -> bool)
    ensures Count(ws, p) + Count(ws, w => !p(w)) == |ws|
    decreases |ws|
  {
    if ws != [] {
      CountRest(ws[..|ws| - 1], p);
    }
  }

  lemma {:induction false} CountEither(ws: seq<Window>, p: Window -> bool, q: Window -> bool)
    ensures Count(ws, w => p(w) || q(w)) == Count(ws, p) + Count(ws, q) - Count(ws, w => p(w) && q(w))
    decreases |ws|
  {
    if ws != [] {
      CountEither(ws[..|ws| - 1], p, q);
    }
  }

  lemma {:induction false} CountMore(ws: seq<Window>, p: Window -> bool, q: Window -> bool)
    requires forall w :: p(w) ==> q(w)
    ensures Count(ws, p) <= Count(ws, q)
    ensures Count(ws, p) == Count(ws, q) <==> forall k :: 0 <= k < |ws| ==> (p(ws[k]) <==> q(ws[k]))
    decreases |ws|
  {
    if ws != [] {
      var init, last := ws[..|ws| - 1], |ws| - 1;
      CountMore(init, p, q);
      assert forall k :: 0 <= k < last ==> ws[k] == init[k];
    }
  }

  // ---- Matrices

  type Matrix = seq<seq<int>>

  predicate Shaped(a: Matrix, k: nat, m: nat) {
    |a| == k && forall i :: 0 <= i < k ==> |a[i]| == m
  }

  /** The sum of a list. */
  function Sum(s: seq<int>): int {
    if s == [] then 0 else Sum(s[..|s| - 1]) + s[|s| - 1]
  }

  function Column(a: Matrix, m: nat, j: nat): (s: seq<int>)
    requires Shaped(a, |a|, m) && j < m
    ensures |s| == |a|
  {
    seq(|a|, i requires 0 <= i < |a| => a[i][j])
  }

  /** np.cumsum along axis 0: running sums down each column. */
  function SumDown(a: Matrix, m: nat): (b: Matrix)
    requires Shaped(a, |a|, m)
    ensures Shaped(b, |a|, m)
  {
    seq(|a|, i requires 0 <= i < |a| => seq(m, j requires 0 <= j < m => Sum(Column(a, m, j)[..i + 1])))
  }

  /** np.cumsum along axis 1: running sums along each row. */
  function SumAcross(a: Matrix, m: nat): (b: Matrix)
    requires Shaped(a, |a|, m)
    ensures Shaped(b, |a|, m)
  {
    seq(|a|, i requires 0 <= i < |a| => seq(m, j requires 0 <= j < m => Sum(a[i][..j + 1])))
  }

  function Reversed<T>(s: seq<T>): (r: seq<T>)
    ensures |r| == |s| && forall i :: 0 <= i < |s| ==> r[i] == s[|s| - 1 - i]
  {
    seq(|s|, i requires 0 <= i < |s| => s[|s| - 1 - i])
  }

  /** np.flip along axis 1. */
  function Mirrored(a: Matrix, m: nat): (b: Matrix)
    requires Shaped(a, |a|, m)
    ensures Shaped(b, |a|, m)
  {
    seq(|a|, i requires 0 <= i < |a| => Reversed(a[i]))
  }

  function Zeros(n: nat): (s: seq<int>)
    ensures |s| == n && forall i :: 0 <= i < n ==> s[i] == 0
  {
    seq(n, _ => 0)
  }

  /** edge_hist: how many windows fall in each pair of bins. */
  function EdgeHist(ws: seq<Window>, ex: seq<real>, ey: seq<real>): (h: Matrix)
    requires |ex| > 0 && |ey| > 0
    ensures Shaped(h, |ex|, |ey|)
  {
    if ws == [] then seq(|ex|, _ => Zeros(|ey|))
    else
      var h := EdgeHist(ws[..|ws| - 1], ex, ey);
      var w := ws[|ws| - 1];
      var i, j := Bin(ex, w.x), Bin(ey, w.y);
      h[i := h[i][j := h[i][j] + 1]]
  }

  /** The rectangle sums behind both rules. */
  datatype Counts = Counts(carrier: Matrix, noise: Matrix)

  function Below(h: Matrix, m: nat): (b: Matrix)
    requires Shaped(h, |h|, m)
    ensures Shaped(b, |h| + 1, m)
  {
    [Zeros(m)] + SumDown(h, m)
  }

  function WithZero(a: Matrix, m: nat): (b: Matrix)
    requires Shaped(a, |a|, m)
    ensures Shaped(b, |a|, m + 1)
  {
    seq(|a|, i requires 0 <= i < |a| => a[i] + [0])
  }

  function Joint(h: Matrix, m: nat): (b: Matrix)
    requires Shaped(h, |h|, m)
    ensures Shaped(b, |h| + 1, m + 1)
  {
    WithZero(Mirrored(SumAcross(Mirrored(Below(h, m), m), m), m), m)
  }

  function AtOrAbove(h: Matrix, m: nat): (b: Matrix)
    requires Shaped(h, |h|, m)
    ensures Shaped(b, |h| + 1, m)
  {
    var up := Reversed(h);
    assert Shaped(up, |h|, m);
    Reversed(SumDown(up, m)) + [Zeros(m)]
  }

  /** rule_counts, with one more row and column than the histogram for the thresholds past the last edges. */
  function RuleCounts(h: Matrix, m: nat): (c: Counts)
    requires Shaped(h, |h|, m)
    ensures Shaped(c.carrier, |h| + 1, m + 1) && Shaped(c.noise, |h| + 1, m + 1)
  {
    var joint, across := Joint(h, m), SumAcross(AtOrAbove(h, m), m);
    assert |across| == |h| + 1 && forall i :: 0 <= i < |h| + 1 ==> |[0] + across[i]| == m + 1;
    Counts(seq(|h| + 1, i requires 0 <= i < |h| + 1 =>
             seq(m + 1, j requires 0 <= j < m + 1 => joint[i][0] + joint[|h|][j] - joint[i][j])),
           seq(|h| + 1, i requires 0 <= i < |h| + 1 => [0] + across[i]))
  }

  // ---- What the sums are

  /** The sum over rows [i0, i1) and columns [j0, j1). */
  function Row(s: seq<int>, j0: nat, j1: nat): int
    requires j0 <= j1 <= |s|
    decreases j1
  {
    if j0 == j1 then 0 else Row(s, j0, j1 - 1) + s[j1 - 1]
  }

  function Box(h: Matrix, m: nat, i0: nat, i1: nat, j0: nat, j1: nat): int
    requires Shaped(h, |h|, m) && i0 <= i1 <= |h| && j0 <= j1 <= m
    decreases i1
  {
    if i0 == i1 then 0 else Box(h, m, i0, i1 - 1, j0, j1) + Row(h[i1 - 1], j0, j1)
  }

  lemma {:induction false} RowUpdate(s: seq<int>, q: nat, j0: nat, j1: nat)
    requires j0 <= j1 <= |s| && q < |s|
    ensures Row(s[q := s[q] + 1], j0, j1) == Row(s, j0, j1) + if j0 <= q < j1 then 1 else 0
    decreases j1
  {
    if j0 < j1 {
      RowUpdate(s, q, j0, j1 - 1);
    }
  }

  lemma {:induction false} BoxUpdate(h: Matrix, m: nat, p: nat, q: nat, i0: nat, i1: nat, j0: nat, j1: nat)
    requires Shaped(h, |h|, m) && i0 <= i1 <= |h| && j0 <= j1 <= m && p < |h| && q < m
    ensures Box(h[p := h[p][q := h[p][q] + 1]], m, i0, i1, j0, j1)
            == Box(h, m, i0, i1, j0, j1) + if i0 <= p < i1 && j0 <= q < j1 then 1 else 0
    decreases i1
  {
    if i0 < i1 {
      BoxUpdate(h, m, p, q, i0, i1 - 1, j0, j1);
      RowUpdate(h[p], q, j0, j1);
    }
  }

  lemma {:induction false} RowOfZeros(n: nat, j0: nat, j1: nat)
    requires j0 <= j1 <= n
    ensures Row(Zeros(n), j0, j1) == 0
    decreases j1
  {
    if j0 < j1 {
      RowOfZeros(n, j0, j1 - 1);
    }
  }

  lemma {:induction false} BoxOfZeros(k: nat, m: nat, i0: nat, i1: nat, j0: nat, j1: nat)
    requires i0 <= i1 <= k && j0 <= j1 <= m
    ensures Box(seq(k, _ => Zeros(m)), m, i0, i1, j0, j1) == 0
    decreases i1
  {
    if i0 < i1 {
      BoxOfZeros(k, m, i0, i1 - 1, j0, j1);
      RowOfZeros(m, j0, j1);
    }
  }

  /** The windows whose bins lie in a box. */
  function InBox(ex: seq<real>, ey: seq<real>, i0: nat, i1: nat, j0: nat, j1: nat): Window -> bool
    requires |ex| > 0 && |ey| > 0
  {
    (w: Window) => i0 <= Bin(ex, w.x) < i1 && j0 <= Bin(ey, w.y) < j1
  }

  /** A box of the histogram holds exactly the windows whose bins lie in it. */
  lemma {:induction false} BoxCounts(ws: seq<Window>, ex: seq<real>, ey: seq<real>, i0: nat, i1: nat, j0: nat, j1: nat)
    requires |ex| > 0 && |ey| > 0 && i0 <= i1 <= |ex| && j0 <= j1 <= |ey|
    ensures Box(EdgeHist(ws, ex, ey), |ey|, i0, i1, j0, j1) == Count(ws, InBox(ex, ey, i0, i1, j0, j1))
    decreases |ws|
  {
    if ws == [] {
      BoxOfZeros(|ex|, |ey|, i0, i1, j0, j1);
    } else {
      var init, w := ws[..|ws| - 1], ws[|ws| - 1];
      BoxCounts(init, ex, ey, i0, i1, j0, j1);
      BoxUpdate(EdgeHist(init, ex, ey), |ey|, Bin(ex, w.x), Bin(ey, w.y), i0, i1, j0, j1);
    }
  }

  function Added(s: seq<int>, t: seq<int>): (r: seq<int>)
    requires |s| == |t|
    ensures |r| == |s|
  {
    seq(|s|, i requires 0 <= i < |s| => s[i] + t[i])
  }

  /** The sums down the columns over rows [i0, i1). */
  function Columns(h: Matrix, m: nat, i0: nat, i1: nat): (s: seq<int>)
    requires Shaped(h, |h|, m) && i0 <= i1 <= |h|
    ensures |s| == m
    decreases i1
  {
    if i0 == i1 then Zeros(m) else Added(Columns(h, m, i0, i1 - 1), h[i1 - 1])
  }

  lemma {:induction false} ColumnsFirst(h: Matrix, m: nat, i0: nat, i1: nat)
    requires Shaped(h, |h|, m) && i0 < i1 <= |h|
    ensures Columns(h, m, i0, i1) == Added(h[i0], Columns(h, m, i0 + 1, i1))
    decreases i1
  {
    if i0 + 1 < i1 {
      ColumnsFirst(h, m, i0, i1 - 1);
    }
  }

  lemma {:induction false} RowAdded(s: seq<int>, t: seq<int>, j0: nat, j1: nat)
    requires |s| == |t| && j0 <= j1 <= |s|
    ensures Row(Added(s, t), j0, j1) == Row(s, j0, j1) + Row(t, j0, j1)
    decreases j1
  {
    if j0 < j1 {
      RowAdded(s, t, j0, j1 - 1);
    }
  }

  lemma {:induction false} RowOfColumns(h: Matrix, m: nat, i0: nat, i1: nat, j0: nat, j1: nat)
    requires Shaped(h, |h|, m) && i0 <= i1 <= |h| && j0 <= j1 <= m
    ensures Row(Columns(h, m, i0, i1), j0, j1) == Box(h, m, i0, i1, j0, j1)
    decreases i1
  {
    if i0 == i1 {
      RowOfZeros(m, j0, j1);
    } else {
      RowOfColumns(h, m, i0, i1 - 1, j0, j1);
      RowAdded(Columns(h, m, i0, i1 - 1), h[i1 - 1], j0, j1);
    }
  }

  lemma {:induction false} RunningDown(h: Matrix, m: nat, n: nat, j: nat)
    requires Shaped(h, |h|, m) && n <= |h| && j < m
    ensures Sum(Column(h, m, j)[..n]) == Columns(h, m, 0, n)[j]
    decreases n
  {
    if n > 0 {
      RunningDown(h, m, n - 1, j);
      assert Column(h, m, j)[..n][..n - 1] == Column(h, m, j)[..n - 1];
    }
  }

  lemma {:induction false} RunningUp(h: Matrix, m: nat, n: nat, j: nat)
    requires Shaped(h, |h|, m) && n <= |h| && j < m
    ensures Shaped(Reversed(h), |h|, m)
    ensures Sum(Column(Reversed(h), m, j)[..n]) == Columns(h, m, |h| - n, |h|)[j]
    decreases n
  {
    if n > 0 {
      RunningUp(h, m, n - 1, j);
      var c := Column(Reversed(h), m, j);
      assert c[..n][..n - 1] == c[..n - 1];
      ColumnsFirst(h, m, |h| - n, |h|);
    }
  }

  lemma {:induction false} RunningAcross(s: seq<int>, n: nat)
    requires n <= |s|
    ensures Sum(s[..n]) == Row(s, 0, n)
    decreases n
  {
    if n > 0 {
      RunningAcross(s, n - 1);
      assert s[..n][..n - 1] == s[..n - 1];
    }
  }

  lemma {:induction false} RowFirst(s: seq<int>, j0: nat, j1: nat)
    requires j0 < j1 <= |s|
    ensures Row(s, j0, j1) == s[j0] + Row(s, j0 + 1, j1)
    decreases j1
  {
    if j0 + 1 < j1 {
      RowFirst(s, j0, j1 - 1);
    }
  }

  lemma {:induction false} RunningBack(s: seq<int>, n: nat)
    requires n <= |s|
    ensures Sum(Reversed(s)[..n]) == Row(s, |s| - n, |s|)
    decreases n
  {
    if n > 0 {
      RunningBack(s, n - 1);
      assert Reversed(s)[..n][..n - 1] == Reversed(s)[..n - 1];
      RowFirst(s, |s| - n, |s|);
    }
  }

  lemma BelowIsColumns(h: Matrix, m: nat, i: nat)
    requires Shaped(h, |h|, m) && i <= |h|
    ensures Below(h, m)[i] == Columns(h, m, 0, i)
  {
    if i > 0 {
      forall j | 0 <= j < m ensures Below(h, m)[i][j] == Columns(h, m, 0, i)[j] {
        RunningDown(h, m, i, j);
      }
    }
  }

  lemma JointIsBox(h: Matrix, m: nat, i: nat, j: nat)
    requires Shaped(h, |h|, m) && i <= |h| && j <= m
    ensures Joint(h, m)[i][j] == Box(h, m, 0, i, j, m)
  {
    hide Box, Columns, Sum, Row;
    BelowIsColumns(h, m, i);
    RowOfColumns(h, m, 0, i, j, m);
    if j < m {
      RunningBack(Below(h, m)[i], m - j);
      JointEntry(h, m, i, j);
    } else {
      EmptyRow(Columns(h, m, 0, i), m);
    }
  }

  lemma EmptyRow(s: seq<int>, j: nat)
    requires j <= |s|
    ensures Row(s, j, j) == 0
  {
  }

  lemma JointEntry(h: Matrix, m: nat, i: nat, j: nat)
    requires Shaped(h, |h|, m) && i <= |h| && j < m
    ensures Joint(h, m)[i][j] == Sum(Reversed(Below(h, m)[i])[..m - j])
  {
    hide Sum, Below;
    var b := Below(h, m);
    var a := SumAcross(Mirrored(b, m), m);
    assert Mirrored(a, m)[i][j] == a[i][m - 1 - j];
    assert Mirrored(b, m)[i] == Reversed(b[i]);
  }

  lemma AtOrAboveIsColumns(h: Matrix, m: nat, i: nat)
    requires Shaped(h, |h|, m) && i <= |h|
    ensures AtOrAbove(h, m)[i] == Columns(h, m, i, |h|)
  {
    if i < |h| {
      forall j | 0 <= j < m ensures AtOrAbove(h, m)[i][j] == Columns(h, m, i, |h|)[j] {
        RunningUp(h, m, |h| - i, j);
      }
    }
  }

  lemma NoiseIsBox(h: Matrix, m: nat, i: nat, j: nat)
    requires Shaped(h, |h|, m) && i <= |h| && j <= m
    ensures RuleCounts(h, m).noise[i][j] == Box(h, m, i, |h|, 0, j)
  {
    hide Box, Columns, Sum, Row, Joint, AtOrAbove;
    AtOrAboveIsColumns(h, m, i);
    RowOfColumns(h, m, i, |h|, 0, j);
    NoiseEntry(h, m, i, j);
    if j > 0 {
      RunningAcross(AtOrAbove(h, m)[i], j);
    } else {
      EmptyRow(AtOrAbove(h, m)[i], 0);
    }
  }

  lemma NoiseEntry(h: Matrix, m: nat, i: nat, j: nat)
    requires Shaped(h, |h|, m) && i <= |h| && j <= m
    ensures RuleCounts(h, m).noise[i][j] == if j == 0 then 0 else Sum(AtOrAbove(h, m)[i][..j])
  {
    hide Joint, AtOrAbove, Sum;
    assert RuleCounts(h, m).noise[i] == [0] + SumAcross(AtOrAbove(h, m), m)[i];
  }

  // ---- The counts are exact

  /** t1, t2 at grid indices: the CARRIER rule. */
  function Carrier(ex: seq<real>, ey: seq<real>, i: nat, j: nat): Window -> bool
    requires i <= |ex| && j <= |ey|
  {
    (w: Window) => Under(ex, i, w.x) || !Under(ey, j, w.y)
  }

  /** t3, t4 at grid indices: the NOISE rule. */
  function Noise(ex: seq<real>, ey: seq<real>, i: nat, j: nat): Window -> bool
    requires i <= |ex| && j <= |ey|
  {
    (w: Window) => !Under(ex, i, w.x) && Under(ey, j, w.y)
  }

  lemma NoiseCounts(ws: seq<Window>, ex: seq<real>, ey: seq<real>, i: nat, j: nat)
    requires |ex| > 0 && |ey| > 0 && i <= |ex| && j <= |ey|
    ensures RuleCounts(EdgeHist(ws, ex, ey), |ey|).noise[i][j] == Count(ws, InBox(ex, ey, i, |ex|, 0, j))
  {
    hide RuleCounts, EdgeHist, Box;
    NoiseIsBox(EdgeHist(ws, ex, ey), |ey|, i, j);
    BoxCounts(ws, ex, ey, i, |ex|, 0, j);
  }

  /** The two surfaces always split the windows between them. */
  lemma CarrierIsRest(ws: seq<Window>, ex: seq<real>, ey: seq<real>, i: nat, j: nat)
    requires |ex| > 0 && |ey| > 0 && i <= |ex| && j <= |ey|
    ensures var c := RuleCounts(EdgeHist(ws, ex, ey), |ey|);
            c.carrier[i][j] + c.noise[i][j] == |ws|
  {
    var k, m := |ex|, |ey|;
    var h := EdgeHist(ws, ex, ey);
    var p, q := InBox(ex, ey, 0, i, 0, m), InBox(ex, ey, 0, k, j, m);
    CarrierEntry(h, m, i, j);
    JointIsBox(h, m, i, 0);
    JointIsBox(h, m, k, j);
    JointIsBox(h, m, i, j);
    BoxCounts(ws, ex, ey, 0, i, 0, m);
    BoxCounts(ws, ex, ey, 0, k, j, m);
    BoxCounts(ws, ex, ey, 0, i, j, m);
    CountEither(ws, p, q);
    CountSame(ws, InBox(ex, ey, 0, i, j, m), w => p(w) && q(w));
    NoiseCounts(ws, ex, ey, i, j);
    CountRest(ws, InBox(ex, ey, i, k, 0, j));
    CountSame(ws, w => p(w) || q(w), w => !InBox(ex, ey, i, k, 0, j)(w));
  }

  lemma CarrierEntry(h: Matrix, m: nat, i: nat, j: nat)
    requires Shaped(h, |h|, m) && i <= |h| && j <= m
    ensures RuleCounts(h, m).carrier[i][j] == Joint(h, m)[i][0] + Joint(h, m)[|h|][j] - Joint(h, m)[i][j]
  {
  }

  /** A threshold at an axis's first edge counts as if no value were under it. */
  predicate Misplaced(ex: seq<real>, ey: seq<real>, i: nat, j: nat, w: Window)
    requires i <= |ex| && j <= |ey|
  {
    (i == 0 && j > 0 && Under(ex, 0, w.x) && Under(ey, j, w.y)) || (j == 0 && !Under(ex, i, w.x) && Under(ey, 0, w.y))
  }

  lemma BoxAgainstRule(ex: seq<real>, ey: seq<real>, i: nat, j: nat, w: Window)
    requires Edges(ex) && Edges(ey) && i <= |ex| && j <= |ey|
    ensures InBox(ex, ey, i, |ex|, 0, j)(w) == Noise(ex, ey, i, j)(w) <==> !Misplaced(ex, ey, i, j, w)
    ensures j > 0 && Noise(ex, ey, i, j)(w) ==> InBox(ex, ey, i, |ex|, 0, j)(w)
    ensures j == 0 ==> !InBox(ex, ey, i, |ex|, 0, j)(w)
  {
    BinUnder(ex, w.x, i);
    BinUnder(ey, w.y, j);
  }

  /** At any threshold pair both surfaces equal the direct counts of the two rules exactly when no window is misplaced;
      at indices from 1 on none can be. */
  lemma RuleCountsExactly(ws: seq<Window>, ex: seq<real>, ey: seq<real>, i: nat, j: nat)
    requires Edges(ex) && Edges(ey) && i <= |ex| && j <= |ey|
    ensures var c := RuleCounts(EdgeHist(ws, ex, ey), |ey|);
            var direct := forall k :: 0 <= k < |ws| ==> !Misplaced(ex, ey, i, j, ws[k]);
            && (c.noise[i][j] == Count(ws, Noise(ex, ey, i, j)) <==> direct)
            && (c.carrier[i][j] == Count(ws, Carrier(ex, ey, i, j)) <==> direct)
            && c.carrier[i][j] + c.noise[i][j] == |ws|
            && (i >= 1 && j >= 1 ==> direct)
  {
    hide RuleCounts, EdgeHist, Count, Bin, Under;
    var noise, carrier, box := Noise(ex, ey, i, j), Carrier(ex, ey, i, j), InBox(ex, ey, i, |ex|, 0, j);
    NoiseCounts(ws, ex, ey, i, j);
    CarrierIsRest(ws, ex, ey, i, j);
    CountRest(ws, noise);
    CountSame(ws, carrier, w => !noise(w));
    forall w: Window
      ensures box(w) == noise(w) <==> !Misplaced(ex, ey, i, j, w)
      ensures j > 0 && noise(w) ==> box(w)
      ensures j == 0 ==> !box(w)
    {
      BoxAgainstRule(ex, ey, i, j, w);
    }
    if j > 0 {
      CountMore(ws, noise, box);
    } else {
      CountMore(ws, box, noise);
    }
  }

  /** At index 0 of the x edges a window under both axes' first edges is counted as noise, though it is under the
      threshold, and not as a carrier, though it is one. */
  lemma MiscountedAtZero(ex: seq<real>, ey: seq<real>, j: nat)
    requires Edges(ex) && Edges(ey) && 1 <= j <= |ey|
    ensures var ws := [Window(ex[0] - 1.0, ey[0] - 1.0)];
            var c := RuleCounts(EdgeHist(ws, ex, ey), |ey|);
            && Misplaced(ex, ey, 0, j, ws[0])
            && c.noise[0][j] == 1 && Count(ws, Noise(ex, ey, 0, j)) == 0
            && c.carrier[0][j] == 0 && Count(ws, Carrier(ex, ey, 0, j)) == 1
  {
    hide RuleCounts, EdgeHist;
    var w := Window(ex[0] - 1.0, ey[0] - 1.0);
    var ws := [w];
    assert j < |ey| ==> ey[0] < ey[j] || j == 0;
    assert Under(ex, 0, w.x) && Under(ey, j, w.y) && !Noise(ex, ey, 0, j)(w) && Carrier(ex, ey, 0, j)(w);
    RuleCountsExactly(ws, ex, ey, 0, j);
    NoiseCounts(ws, ex, ey, 0, j);
    OneCounted(w, InBox(ex, ey, 0, |ex|, 0, j));
    OneCounted(w, Noise(ex, ey, 0, j));
    OneCounted(w, Carrier(ex, ey, 0, j));
  }

  lemma OneCounted(w: Window, p: Window -> bool)
    ensures Count([w], p) == if p(w) then 1 else 0
  {
  }

  // ---- Both rules together

  /** With the second pair beyond the first, as the search leaves them, no window is both CARRIER and NOISE, so
      excluding called windows from the noise rule excludes nothing. A plan's per-window counts are its surfaces'
      entries exactly when no window is misplaced at that pair. */
  lemma VerdictMatchesSurface(ws: seq<Window>, ex: seq<real>, ey: seq<real>, i1: nat, j2: nat, i3: nat, j4: nat)
    requires Edges(ex) && Edges(ey) && i1 <= i3 <= |ex| && j4 <= j2 <= |ey|
    ensures forall w :: !(Carrier(ex, ey, i1, j2)(w) && Noise(ex, ey, i3, j4)(w))
    ensures var c := RuleCounts(EdgeHist(ws, ex, ey), |ey|);
            && (Count(ws, Carrier(ex, ey, i1, j2)) == c.carrier[i1][j2] <==>
                forall k :: 0 <= k < |ws| ==> !Misplaced(ex, ey, i1, j2, ws[k]))
            && (Count(ws, w => Noise(ex, ey, i3, j4)(w) && !Carrier(ex, ey, i1, j2)(w)) == c.noise[i3][j4] <==>
                forall k :: 0 <= k < |ws| ==> !Misplaced(ex, ey, i3, j4, ws[k]))
  {
    hide RuleCounts, EdgeHist, Count, Misplaced, Carrier, Noise;
    var carrier, noise := Carrier(ex, ey, i1, j2), Noise(ex, ey, i3, j4);
    forall w ensures !(carrier(w) && noise(w)) {
      NeverBoth(ex, ey, i1, j2, i3, j4, w);
    }
    RuleCountsExactly(ws, ex, ey, i1, j2);
    RuleCountsExactly(ws, ex, ey, i3, j4);
    CountSame(ws, noise, w => noise(w) && !carrier(w));
  }

  lemma NeverBoth(ex: seq<real>, ey: seq<real>, i1: nat, j2: nat, i3: nat, j4: nat, w: Window)
    requires Edges(ex) && Edges(ey) && i1 <= i3 <= |ex| && j4 <= j2 <= |ey|
    ensures !(Carrier(ex, ey, i1, j2)(w) && Noise(ex, ey, i3, j4)(w))
  {
  }
}
