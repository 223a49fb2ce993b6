/** The threshold search: from the surfaces of every plan the pair of each rule deepest inside what all plans accept. */
module ThresholdSearch {

  const FALSE_CARRIER_TARGET: real := 0.0001
  const POLLUTION_TARGET: real := 0.0001
  const MISS_TARGET: real := 0.01
  const NOISE_UNDECIDED_TARGET: real := 0.25

  type Rates = seq<seq<real>>
  type Mask = seq<seq<bool>>

  predicate Grid<T>(a: seq<seq<T>>, k: nat, m: nat) {
    |a| == k && forall i :: 0 <= i < k ==> |a[i]| == m
  }

  /** One plan's rates at every threshold pair. */
  datatype Surface = Surface(fa: Rates, nn: Rates, called6: Rates, pol: Rates) {
    predicate Valid(k: nat, m: nat) {
      Grid(fa, k, m) && Grid(nn, k, m) && Grid(called6, k, m) && Grid(pol, k, m)
    }
  }

  predicate AllValid(plans: seq<Surface>, k: nat, m: nat) {
    forall p :: 0 <= p < |plans| ==> plans[p].Valid(k, m)
  }

  function Larger(a: real, b: real): real {
    if a >= b then a else b
  }

  function Largest(s: seq<real>): real
    requires s != []
  {
    if |s| == 1 then s[0] else Larger(Largest(s[..|s| - 1]), s[|s| - 1])
  }

  lemma {:induction false} LargestBound(s: seq<real>, t: real)
    requires s != []
    ensures Largest(s) <= t <==> forall p :: 0 <= p < |s| ==> s[p] <= t
    decreases |s|
  {
    if |s| > 1 {
      LargestBound(s[..|s| - 1], t);
      assert forall p :: 0 <= p < |s| - 1 ==> s[p] == s[..|s| - 1][p];
    }
  }

  /** The worst of a rate over all plans, as a multiple of its target; the rule's two rates together. */
  function CarrierScore(plans: seq<Surface>, k: nat, m: nat, i: nat, j: nat): real
    requires plans != [] && AllValid(plans, k, m) && i < k && j < m
  {
    Larger(Largest(seq(|plans|, p requires 0 <= p < |plans| => plans[p].fa[i][j])) / FALSE_CARRIER_TARGET,
           Largest(seq(|plans|, p requires 0 <= p < |plans| => 1.0 - plans[p].called6[i][j])) / MISS_TARGET)
  }

  function NoiseScore(plans: seq<Surface>, k: nat, m: nat, i: nat, j: nat): real
    requires plans != [] && AllValid(plans, k, m) && i < k && j < m
  {
    Larger(Largest(seq(|plans|, p requires 0 <= p < |plans| => plans[p].pol[i][j])) / POLLUTION_TARGET,
           Largest(seq(|plans|, p requires 0 <= p < |plans| => 1.0 - plans[p].nn[i][j])) / NOISE_UNDECIDED_TARGET)
  }

  /** A plan's own targets for each rule at one pair. */
  predicate AcceptsCarrier(s: Surface, i: nat, j: nat)
    requires i < |s.fa| && j < |s.fa[i]| && i < |s.called6| && j < |s.called6[i]|
  {
    s.fa[i][j] <= FALSE_CARRIER_TARGET && 1.0 - s.called6[i][j] <= MISS_TARGET
  }

  predicate AcceptsNoise(s: Surface, i: nat, j: nat)
    requires i < |s.pol| && j < |s.pol[i]| && i < |s.nn| && j < |s.nn[i]|
  {
    s.pol[i][j] <= POLLUTION_TARGET && 1.0 - s.nn[i][j] <= NOISE_UNDECIDED_TARGET
  }

  /** Every plan's false carriers and misses at a pair are at most t times their targets. */
  predicate CarrierWithin(plans: seq<Surface>, k: nat, m: nat, i: nat, j: nat, t: real)
    requires AllValid(plans, k, m) && i < k && j < m
  {
    forall p :: 0 <= p < |plans| ==> plans[p].fa[i][j] <= t * 0.0001 && 1.0 - plans[p].called6[i][j] <= t * 0.01
  }

  /** And every plan's pollution and undecided noise. */
  predicate NoiseWithin(plans: seq<Surface>, k: nat, m: nat, i: nat, j: nat, t: real)
    requires AllValid(plans, k, m) && i < k && j < m
  {
    forall p :: 0 <= p < |plans| ==> plans[p].pol[i][j] <= t * 0.0001 && 1.0 - plans[p].nn[i][j] <= t * 0.25
  }

  /** A score is the least multiple of the targets that every plan's rates stay within. */
  lemma CarrierScoreIsExcess(plans: seq<Surface>, k: nat, m: nat, i: nat, j: nat, t: real)
    requires plans != [] && AllValid(plans, k, m) && i < k && j < m
    ensures CarrierScore(plans, k, m, i, j) <= t <==> CarrierWithin(plans, k, m, i, j, t)
  {
    hide Largest;
    var fa := seq(|plans|, p requires 0 <= p < |plans| => plans[p].fa[i][j]);
    var miss := seq(|plans|, p requires 0 <= p < |plans| => 1.0 - plans[p].called6[i][j]);
    LargestBound(fa, t * FALSE_CARRIER_TARGET);
    LargestBound(miss, t * MISS_TARGET);
    assert forall p :: 0 <= p < |plans| ==> fa[p] == plans[p].fa[i][j] && miss[p] == 1.0 - plans[p].called6[i][j];
  }

  lemma NoiseScoreIsExcess(plans: seq<Surface>, k: nat, m: nat, i: nat, j: nat, t: real)
    requires plans != [] && AllValid(plans, k, m) && i < k && j < m
    ensures NoiseScore(plans, k, m, i, j) <= t <==> NoiseWithin(plans, k, m, i, j, t)
  {
    hide Largest;
    var pol := seq(|plans|, p requires 0 <= p < |plans| => plans[p].pol[i][j]);
    var undecided := seq(|plans|, p requires 0 <= p < |plans| => 1.0 - plans[p].nn[i][j]);
    LargestBound(pol, t * POLLUTION_TARGET);
    LargestBound(undecided, t * NOISE_UNDECIDED_TARGET);
    assert forall p :: 0 <= p < |plans| ==> pol[p] == plans[p].pol[i][j] && undecided[p] == 1.0 - plans[p].nn[i][j];
  }

  /** A score of at most 1 means exactly: every plan accepts the pair. */
  lemma ScoreMeansAccepted(plans: seq<Surface>, k: nat, m: nat, i: nat, j: nat)
    requires plans != [] && AllValid(plans, k, m) && i < k && j < m
    ensures CarrierScore(plans, k, m, i, j) <= 1.0 <==> forall p :: 0 <= p < |plans| ==> AcceptsCarrier(plans[p], i, j)
    ensures NoiseScore(plans, k, m, i, j) <= 1.0 <==> forall p :: 0 <= p < |plans| ==> AcceptsNoise(plans[p], i, j)
  {
    hide CarrierScore, NoiseScore;
    CarrierScoreIsExcess(plans, k, m, i, j, 1.0);
    NoiseScoreIsExcess(plans, k, m, i, j, 1.0);
  }

  // The depth of a cell inside a mask

  /** A cell of the mask; the mask stands in a border of cells outside it. */
  predicate Inside(mask: Mask, k: nat, m: nat, r: int, c: int)
    requires Grid(mask, k, m)
  {
    0 <= r < k && 0 <= c < m && mask[r][c]
  }

  function Times(x: real, y: real): real {
    x * y
  }

  lemma TimesPositive(x: real, y: real)
    requires x > 0.0 && y > 0.0
    ensures Times(x, y) > 0.0
  {
  }

  function Square(x: real): (y: real)
    ensures y >= 0.0 && (y > 0.0 <==> x != 0.0)
  {
    hide Times;
    var a := if x >= 0.0 then x else 0.0 - x;
    if a == 0.0 then 0.0
    else
      TimesPositive(a, a);
      Times(a, a)
  }

  function Steps(n: int, step: real): real {
    n as real * step
  }

  /** The square of the distance between two cells in feature units, the steps of the two axes being sx and sy. */
  function Gap(sx: real, sy: real, i: int, j: int, r: int, c: int): (d: real)
    ensures d >= 0.0
  {
    Square(Steps(i - r, sx)) + Square(Steps(j - c, sy))
  }

  /** The gap by its axes: along a column, the rows between in steps of sx; along a row, the columns between in steps
      of sy; and across both, the sum of the two squares. */
  lemma GapByAxes(sx: real, sy: real, i: int, j: int, r: int, c: int)
    requires sx > 0.0 && sy > 0.0
    ensures Gap(sx, sy, i, j, r, c) == Gap(sx, sy, i, j, r, j) + Gap(sx, sy, i, j, i, c)
    ensures var rows := Along(i - r, sx); Gap(sx, sy, i, j, r, j) == Times(rows, rows)
    ensures var columns := Along(j - c, sy); Gap(sx, sy, i, j, i, c) == Times(columns, columns)
  {
    hide Times, Square, Along, Steps;
    SquareAlong(i - r, sx);
    SquareAlong(j - c, sy);
    NoSteps(i - i, sx);
    NoSteps(j - j, sy);
  }

  lemma NoSteps(n: int, step: real)
    requires step > 0.0 && n == 0
    ensures Square(Steps(n, step)) == 0.0
  {
    SignAlong(n, step);
  }

  /** The length of n steps, either way. */
  function Along(n: int, step: real): real {
    (if n >= 0 then n else -n) as real * step
  }

  lemma SquareAlong(n: int, step: real)
    requires step > 0.0
    ensures Square(Steps(n, step)) == Times(Along(n, step), Along(n, step))
  {
    hide Times;
    TimesZero();
    SignAlong(n, step);
    assert Square(Steps(n, step)) == Times(Along(n, step), Along(n, step));
  }

  lemma SignAlong(n: int, step: real)
    requires step > 0.0
    ensures n > 0 ==> Along(n, step) == Steps(n, step) > 0.0
    ensures n < 0 ==> Along(n, step) == 0.0 - Steps(n, step) > 0.0
    ensures n == 0 ==> Along(n, step) == Steps(n, step) == 0.0
  {
    if n > 0 {
      assert n as real > 0.0;
    } else if n < 0 {
      assert (-n) as real == 0.0 - n as real;
    }
  }

  lemma TimesZero()
    ensures Times(0.0, 0.0) == 0.0
  {
  }

  lemma GapSign(sx: real, sy: real, i: int, j: int, r: int, c: int)
    requires sx > 0.0 && sy > 0.0
    ensures Gap(sx, sy, i, j, r, c) == 0.0 <==> i == r && j == c
  {
    TimesStep(i - r, sx);
    TimesStep(j - c, sy);
  }

  lemma TimesStep(n: int, s: real)
    requires s > 0.0
    ensures Steps(n, s) == 0.0 <==> n == 0
  {
    if n > 0 {
      assert n as real > 0.0;
    } else if n < 0 {
      assert (0 - n) as real * s > 0.0;
    }
  }

  function Smaller(a: real, b: real): real {
    if a <= b then a else b
  }

  /** Over row r's columns from the border's to n - 1: the least gap to a cell outside. */
  function RowGap(mask: Mask, k: nat, m: nat, sx: real, sy: real, i: int, j: int, r: int, n: nat): (d: real)
    requires Grid(mask, k, m)
    ensures exists c :: -1 <= c < n && !Inside(mask, k, m, r, c) && d == Gap(sx, sy, i, j, r, c)
    ensures forall c :: -1 <= c < n && !Inside(mask, k, m, r, c) ==> d <= Gap(sx, sy, i, j, r, c)
  {
    if n == 0 then
      assert !Inside(mask, k, m, r, -1);
      Gap(sx, sy, i, j, r, -1)
    else
      var before := RowGap(mask, k, m, sx, sy, i, j, r, n - 1);
      if Inside(mask, k, m, r, n - 1) then before else Smaller(before, Gap(sx, sy, i, j, r, n - 1))
  }

  /** d is the least gap from the cell to one outside, in rows from the border's to n - 1. */
  ghost predicate LeastGap(mask: Mask, k: nat, m: nat, sx: real, sy: real, i: int, j: int, n: nat, d: real)
    requires Grid(mask, k, m)
  {
    && (exists r, c :: -1 <= r < n && -1 <= c <= m && !Inside(mask, k, m, r, c) && d == Gap(sx, sy, i, j, r, c))
    && (forall r, c :: -1 <= r < n && -1 <= c <= m && !Inside(mask, k, m, r, c) ==> d <= Gap(sx, sy, i, j, r, c))
  }

  function Depth(mask: Mask, k: nat, m: nat, sx: real, sy: real, i: int, j: int, n: nat): (d: real)
    requires Grid(mask, k, m)
    ensures LeastGap(mask, k, m, sx, sy, i, j, n, d)
  {
    var row := RowGap(mask, k, m, sx, sy, i, j, n - 1, m + 1);
    if n == 0 then row else Smaller(Depth(mask, k, m, sx, sy, i, j, n - 1), row)
  }

  /** distance_inside, squared: from each cell of the mask to the nearest one outside, 0 outside. */
  function DepthInside(mask: Mask, k: nat, m: nat, sx: real, sy: real): (d: Rates)
    requires Grid(mask, k, m) && sx > 0.0 && sy > 0.0
    ensures Grid(d, k, m)
    ensures forall i, j :: 0 <= i < k && 0 <= j < m ==>
              LeastGap(mask, k, m, sx, sy, i, j, k + 1, d[i][j]) && d[i][j] >= 0.0 && (d[i][j] > 0.0 <==> mask[i][j])
  {
    hide Depth, LeastGap;
    DepthSigns(mask, k, m, sx, sy);
    seq(k, i requires 0 <= i < k => seq(m, j requires 0 <= j < m => Depth(mask, k, m, sx, sy, i, j, k + 1)))
  }

  lemma DepthSigns(mask: Mask, k: nat, m: nat, sx: real, sy: real)
    requires Grid(mask, k, m) && sx > 0.0 && sy > 0.0
    ensures forall i, j :: 0 <= i < k && 0 <= j < m ==>
              var d := Depth(mask, k, m, sx, sy, i, j, k + 1);
              LeastGap(mask, k, m, sx, sy, i, j, k + 1, d) && d >= 0.0 && (d > 0.0 <==> mask[i][j])
  {
    hide Depth, Gap;
    forall i, j | 0 <= i < k && 0 <= j < m
      ensures var d := Depth(mask, k, m, sx, sy, i, j, k + 1);
              LeastGap(mask, k, m, sx, sy, i, j, k + 1, d) && d >= 0.0 && (d > 0.0 <==> mask[i][j])
    {
      var d := Depth(mask, k, m, sx, sy, i, j, k + 1);
      var r, c :| -1 <= r < k + 1 && -1 <= c <= m && !Inside(mask, k, m, r, c) && d == Gap(sx, sy, i, j, r, c);
      GapSign(sx, sy, i, j, r, c);
      GapSign(sx, sy, i, j, i, j);
      assert !mask[i][j] ==> !Inside(mask, k, m, i, j);
    }
  }

  /** No cell is deeper inside the mask. */
  ghost predicate Deepest(mask: Mask, k: nat, m: nat, sx: real, sy: real, i: nat, j: nat)
    requires Grid(mask, k, m) && sx > 0.0 && sy > 0.0 && i < k && j < m
  {
    var d := DepthInside(mask, k, m, sx, sy);
    forall r, c :: 0 <= r < k && 0 <= c < m ==>
      d[r][c] <= d[i][j] && (d[r][c] == d[i][j] ==> r > i || (r == i && c >= j))
  }

  /** np.argmax and np.unravel_index: the first of the largest, row by row. */
  method ArgMax(a: Rates, k: nat, m: nat) returns (i: nat, j: nat)
    requires Grid(a, k, m) && k > 0 && m > 0
    ensures i < k && j < m
    ensures forall r, c :: 0 <= r < k && 0 <= c < m ==> a[r][c] <= a[i][j]
    ensures forall r, c :: 0 <= r < k && 0 <= c < m && (r < i || (r == i && c < j)) ==> a[r][c] < a[i][j]
  {
    i, j := 0, 0;
    for r := 0 to k
      invariant i < k && j < m && (i < r || (i == 0 && j == 0))
      invariant forall x, y :: 0 <= x < r && 0 <= y < m ==> a[x][y] <= a[i][j]
      invariant forall x, y :: 0 <= x < r && 0 <= y < m && (x < i || (x == i && y < j)) ==> a[x][y] < a[i][j]
    {
      for c := 0 to m
        invariant i < k && j < m && (i < r || (i == r && j < c) || (i == 0 && j == 0))
        invariant forall x, y :: 0 <= x < k && 0 <= y < m && (x < r || (x == r && y < c)) ==> a[x][y] <= a[i][j]
        invariant forall x, y :: 0 <= x < k && 0 <= y < m && (x < r || (x == r && y < c))
                                 && (x < i || (x == i && y < j))
                    ==> a[x][y] < a[i][j]
      {
        if a[r][c] > a[i][j] {
          i, j := r, c;
        }
      }
    }
  }

  /** Cell (i, j) comes before (r, c), row by row. */
  predicate Earlier(i: int, j: int, r: int, c: int) {
    i < r || (i == r && j < c)
  }

  /** np.argmin over the allowed cells, the others standing at infinity: the first of the least. */
  method ArgMin(a: Rates, allowed: Mask, k: nat, m: nat) returns (i: nat, j: nat)
    requires Grid(a, k, m) && Grid(allowed, k, m) && k > 0 && m > 0
    ensures i < k && j < m
    ensures (exists r, c :: 0 <= r < k && 0 <= c < m && allowed[r][c]) ==> allowed[i][j]
    ensures forall r, c :: 0 <= r < k && 0 <= c < m && allowed[r][c] ==>
              a[i][j] <= a[r][c] && (a[i][j] == a[r][c] ==> !Earlier(r, c, i, j))
    ensures !allowed[i][j] ==> i == 0 && j == 0
  {
    i, j := 0, 0;
    for r := 0 to k
      invariant i < k && j < m && (allowed[i][j] || (i == 0 && j == 0)) && (i < r || (i == 0 && j == 0))
      invariant forall x, y :: 0 <= x < r && 0 <= y < m && allowed[x][y] ==>
                  allowed[i][j] && a[i][j] <= a[x][y] && (a[i][j] == a[x][y] ==> !Earlier(x, y, i, j))
    {
      for c := 0 to m
        invariant i < k && j < m && (allowed[i][j] || (i == 0 && j == 0)) && (Earlier(i, j, r, c) || (i == 0 && j == 0))
        invariant forall x, y :: 0 <= x < k && 0 <= y < m && Earlier(x, y, r, c) && allowed[x][y] ==>
                    allowed[i][j] && a[i][j] <= a[x][y] && (a[i][j] == a[x][y] ==> !Earlier(x, y, i, j))
      {
        if allowed[r][c] && (!allowed[i][j] || a[r][c] < a[i][j]) {
          i, j := r, c;
        }
      }
    }
  }

  /** The cells with t3 >= t1 and t4 <= t2. */
  function Beyond(k: nat, m: nat, i1: nat, j2: nat): (a: Mask)
    ensures Grid(a, k, m) && forall i, j :: 0 <= i < k && 0 <= j < m ==> a[i][j] == (i >= i1 && j <= j2)
  {
    seq(k, i requires 0 <= i < k => seq(m, j requires 0 <= j < m => i >= i1 && j <= j2))
  }

  function Everywhere(k: nat, m: nat): (a: Mask)
    ensures Grid(a, k, m) && forall i, j :: 0 <= i < k && 0 <= j < m ==> a[i][j]
  {
    seq(k, i requires 0 <= i < k => seq(m, j requires 0 <= j < m => true))
  }

  function Accepted(score: Rates, allowed: Mask, k: nat, m: nat): (a: Mask)
    requires Grid(score, k, m) && Grid(allowed, k, m)
    ensures Grid(a, k, m)
    ensures forall i, j :: 0 <= i < k && 0 <= j < m ==> a[i][j] == (score[i][j] <= 1.0 && allowed[i][j])
  {
    seq(k, i requires 0 <= i < k => seq(m, j requires 0 <= j < m => score[i][j] <= 1.0 && allowed[i][j]))
  }

  /** The best pair of one rule: the first of the deepest inside what all plans accept, or of least worst excess where
      none is. */
  method BestPair(score: Rates, allowed: Mask, sx: real, sy: real, k: nat, m: nat)
    returns (i: nat, j: nat, all: bool)
    requires Grid(score, k, m) && Grid(allowed, k, m) && k > 0 && m > 0 && sx > 0.0 && sy > 0.0
    requires exists r, c :: 0 <= r < k && 0 <= c < m && allowed[r][c]
    ensures i < k && j < m && allowed[i][j]
    ensures all <==> exists r, c :: 0 <= r < k && 0 <= c < m && allowed[r][c] && score[r][c] <= 1.0
    ensures all ==> score[i][j] <= 1.0 && Deepest(Accepted(score, allowed, k, m), k, m, sx, sy, i, j)
    ensures !all ==> forall r, c :: 0 <= r < k && 0 <= c < m && allowed[r][c] ==>
              score[i][j] <= score[r][c] && (score[i][j] == score[r][c] ==> !Earlier(r, c, i, j))
  {
    hide LeastGap, DepthInside, Accepted;
    var inside := Accepted(score, allowed, k, m);
    var depth := DepthInside(inside, k, m, sx, sy);
    i, j := ArgMax(depth, k, m);
    all := depth[i][j] > 0.0;
    assert inside[i][j] <==> all;
    forall r, c | 0 <= r < k && 0 <= c < m && inside[r][c] ensures all {
      assert depth[r][c] > 0.0;
    }
    if !all {
      i, j := ArgMin(score, allowed, k, m);
    }
  }

  function CarrierScores(plans: seq<Surface>, k: nat, m: nat): (a: Rates)
    requires plans != [] && AllValid(plans, k, m)
    ensures Grid(a, k, m)
    ensures forall i, j :: 0 <= i < k && 0 <= j < m ==>
              a[i][j] == CarrierScore(plans, k, m, i, j) && (a[i][j] <= 1.0 <==> AllAcceptCarrier(plans, k, m, i, j))
  {
    ScoresMeanAccepted(plans, k, m);
    seq(k, i requires 0 <= i < k => seq(m, j requires 0 <= j < m => CarrierScore(plans, k, m, i, j)))
  }

  function NoiseScores(plans: seq<Surface>, k: nat, m: nat): (a: Rates)
    requires plans != [] && AllValid(plans, k, m)
    ensures Grid(a, k, m)
    ensures forall i, j :: 0 <= i < k && 0 <= j < m ==>
              a[i][j] == NoiseScore(plans, k, m, i, j) && (a[i][j] <= 1.0 <==> AllAcceptNoise(plans, k, m, i, j))
  {
    ScoresMeanAccepted(plans, k, m);
    seq(k, i requires 0 <= i < k => seq(m, j requires 0 <= j < m => NoiseScore(plans, k, m, i, j)))
  }

  lemma ScoresMeanAccepted(plans: seq<Surface>, k: nat, m: nat)
    requires plans != [] && AllValid(plans, k, m)
    ensures forall i, j :: 0 <= i < k && 0 <= j < m ==>
              (CarrierScore(plans, k, m, i, j) <= 1.0 <==> AllAcceptCarrier(plans, k, m, i, j))
    ensures forall i, j :: 0 <= i < k && 0 <= j < m ==>
              (NoiseScore(plans, k, m, i, j) <= 1.0 <==> AllAcceptNoise(plans, k, m, i, j))
  {
    hide CarrierScore, NoiseScore;
    forall i, j | 0 <= i < k && 0 <= j < m
      ensures CarrierScore(plans, k, m, i, j) <= 1.0 <==> AllAcceptCarrier(plans, k, m, i, j)
      ensures NoiseScore(plans, k, m, i, j) <= 1.0 <==> AllAcceptNoise(plans, k, m, i, j)
    {
      ScoreMeansAccepted(plans, k, m, i, j);
    }
  }

  /** What every plan's CARRIER rule accepts. */
  function CarrierRegion(plans: seq<Surface>, k: nat, m: nat): (a: Mask)
    requires plans != [] && AllValid(plans, k, m)
    ensures Grid(a, k, m)
    ensures forall i, j :: 0 <= i < k && 0 <= j < m ==> (a[i][j] <==> AllAcceptCarrier(plans, k, m, i, j))
  {
    hide CarrierScore, AllAcceptCarrier;
    Accepted(CarrierScores(plans, k, m), Everywhere(k, m), k, m)
  }

  /** What every plan's NOISE rule accepts, with t3 >= t1 and t4 <= t2. */
  function NoiseRegion(plans: seq<Surface>, k: nat, m: nat, i1: nat, j2: nat): (a: Mask)
    requires plans != [] && AllValid(plans, k, m)
    ensures Grid(a, k, m)
    ensures forall i, j :: 0 <= i < k && 0 <= j < m ==>
              (a[i][j] <==> i >= i1 && j <= j2 && AllAcceptNoise(plans, k, m, i, j))
  {
    hide NoiseScore, AllAcceptNoise;
    Accepted(NoiseScores(plans, k, m), Beyond(k, m, i1, j2), k, m)
  }

  /** choose_thresholds. */
  method ChooseThresholds(plans: seq<Surface>, sx: real, sy: real, k: nat, m: nat)
    returns (i1: nat, j2: nat, i3: nat, j4: nat, allCarrier: bool, allNoise: bool)
    requires plans != [] && AllValid(plans, k, m) && k > 0 && m > 0 && sx > 0.0 && sy > 0.0
    ensures i1 <= i3 < k && j4 <= j2 < m
    ensures allCarrier <==> exists i, j :: 0 <= i < k && 0 <= j < m && AllAcceptCarrier(plans, k, m, i, j)
    ensures allCarrier ==>
              AllAcceptCarrier(plans, k, m, i1, j2) && Deepest(CarrierRegion(plans, k, m), k, m, sx, sy, i1, j2)
    ensures !allCarrier ==> forall i, j, t :: 0 <= i < k && 0 <= j < m && CarrierWithin(plans, k, m, i, j, t) ==>
              CarrierWithin(plans, k, m, i1, j2, t)
    ensures allNoise <==> exists i, j :: i1 <= i < k && 0 <= j <= j2 && AllAcceptNoise(plans, k, m, i, j)
    ensures allNoise ==>
              AllAcceptNoise(plans, k, m, i3, j4) && Deepest(NoiseRegion(plans, k, m, i1, j2), k, m, sx, sy, i3, j4)
    ensures !allNoise ==> forall i, j, t :: i1 <= i < k && 0 <= j <= j2 && NoiseWithin(plans, k, m, i, j, t) ==>
              NoiseWithin(plans, k, m, i3, j4, t)
  {
    hide CarrierScore, NoiseScore, CarrierWithin, NoiseWithin, AllAcceptCarrier, AllAcceptNoise, Accepted,
         CarrierScores, NoiseScores, Everywhere, Beyond, Deepest;
    var everywhere := Everywhere(k, m);
    assert everywhere[0][0];
    i1, j2, allCarrier := BestPair(CarrierScores(plans, k, m), everywhere, sx, sy, k, m);
    var allowed := Beyond(k, m, i1, j2);
    assert allowed[i1][j2];
    i3, j4, allNoise := BestPair(NoiseScores(plans, k, m), allowed, sx, sy, k, m);
    LeastExcess(plans, k, m);
  }

  /** A pair whose score is no greater is within whatever multiple of the targets the other is. */
  lemma LeastExcess(plans: seq<Surface>, k: nat, m: nat)
    requires plans != [] && AllValid(plans, k, m)
    ensures forall i, j, t {:trigger CarrierWithin(plans, k, m, i, j, t)} :: 0 <= i < k && 0 <= j < m ==>
              (CarrierScore(plans, k, m, i, j) <= t <==> CarrierWithin(plans, k, m, i, j, t))
    ensures forall i, j, t {:trigger NoiseWithin(plans, k, m, i, j, t)} :: 0 <= i < k && 0 <= j < m ==>
              (NoiseScore(plans, k, m, i, j) <= t <==> NoiseWithin(plans, k, m, i, j, t))
  {
    hide CarrierScore, NoiseScore, CarrierWithin, NoiseWithin;
    forall i, j, t | 0 <= i < k && 0 <= j < m
      ensures CarrierScore(plans, k, m, i, j) <= t <==> CarrierWithin(plans, k, m, i, j, t)
      ensures NoiseScore(plans, k, m, i, j) <= t <==> NoiseWithin(plans, k, m, i, j, t)
    {
      CarrierScoreIsExcess(plans, k, m, i, j, t);
      NoiseScoreIsExcess(plans, k, m, i, j, t);
    }
  }

  predicate AllAcceptCarrier(plans: seq<Surface>, k: nat, m: nat, i: nat, j: nat)
    requires AllValid(plans, k, m) && i < k && j < m
  {
    forall p :: 0 <= p < |plans| ==> AcceptsCarrier(plans[p], i, j)
  }

  predicate AllAcceptNoise(plans: seq<Surface>, k: nat, m: nat, i: nat, j: nat)
    requires AllValid(plans, k, m) && i < k && j < m
  {
    forall p :: 0 <= p < |plans| ==> AcceptsNoise(plans[p], i, j)
  }
}
