/** Which parameters the learner's guarantees need, exactly: each holds of every run if and only if a condition on the
    parameters alone does, and where the condition fails a run shows it. */
module SquelchLearnerLimits {
  import opened Wrappers
  import opened SquelchLearner
  import opened SquelchLearnerRuns

  // ---- A signal that never changes

  const SPOT := Ref([], 0.0, [])

  /** Every level 0, no spectrum like noise's, nothing louder, every band wide enough and q dB of quieting. */
  function Still(q: real): Acoustics {
    Acoustics(_ => 0.0, (_, _, _) => None, (_, _, _, _) => false, _ => [], _ => MIN_BAND_HZ, (_, _, _) => q,
              (r, _) => r, (r, _) => r, x => x, x => x)
  }

  function StillWindow(steady: bool): Window {
    Window(0, false, false, Reading(SPOT, steady, steady, true), SPOT)
  }

  function Windows(steady: bool, n: nat): (ws: seq<Window>)
    ensures |ws| == n
  {
    if n == 0 then [] else Windows(steady, n - 1) + [StillWindow(steady)]
  }

  function AfterStill(p: Params, q: real, seed: Core, steady: bool, n: nat): State
    requires Seed(seed)
  {
    Run(Still(q), p, seed, 0, Windows(steady, n))
  }

  lemma {:induction false} StillKey(p: Params, q: real, seed: Core, steady: bool, n: nat)
    requires Seed(seed)
    ensures AfterStill(p, q, seed, steady, n).key == 0
  {
    hide Run;
    RunKey(Still(q), p, seed, 0, Windows(steady, n));
    if n > 0 {
      assert Windows(steady, n)[n - 1] == StillWindow(steady);
    }
  }

  /** One more window of a still signal is heard where the learner stands. */
  lemma StillNext(p: Params, q: real, seed: Core, steady: bool, n: nat)
    requires Seed(seed)
    ensures AfterStill(p, q, seed, steady, n + 1).local ==
            Heard(Still(q), p, AfterStill(p, q, seed, steady, n).local, StillWindow(steady)).0
  {
    hide Run, Heard, Still;
    StillKey(p, q, seed, steady, n);
    RunNext(Still(q), p, seed, 0, Windows(steady, n), StillWindow(steady));
  }

  /** The runs a learner waits for before it measures. */
  function Warming(p: Params): nat {
    if p.m <= 1 then 0 else p.m - 1
  }

  // ---- The bands taking part follow the reference

  const BANDLESS := Core(NoBand, None, None, None, false)

  /** In the no-band state, with no reference, no stretch and x runs that showed a band. */
  predicate Waits(l: Local, n: nat, x: nat) {
    l.book.core == BANDLESS && l.ev.stretch.None? && l.ev.part.None? && l.ev.run == n && l.ev.exitN == x
  }

  predicate Lags(l: Local) {
    l.book.core.mode == Provisional && l.book.core.ref == Some(SPOT) && l.ev.part.None?
  }

  /** A window that cannot be confirmed: steady at a level no step tells from itself, or unsteady. */
  lemma WaitsOn(p: Params, l: Local, n: nat, x: nat)
    requires Sane(l) && Waits(l, n, x) && (p.step <= 0.0 || p.noBand <= 0)
    ensures var h := Heard(Still(0.0), p, l, StillWindow(p.step <= 0.0)).0;
            if n < Warming(p) then Waits(h, n + 1, x)
            else if x + 1 < p.noBand then Waits(h, n + 1, x + 1)
            else Lags(h)
  {
    hide Acted, Grows;
  }

  lemma {:induction false} WaitsThrough(p: Params, n: nat)
    requires p.step <= 0.0 || p.noBand <= 0
    requires n <= Warming(p) || n - Warming(p) < p.noBand
    ensures Waits(AfterStill(p, 0.0, BANDLESS, p.step <= 0.0, n).local, n,
                  if n <= Warming(p) then 0 else n - Warming(p))
    decreases n
  {
    hide Heard, Waits, Run;
    if n == 0 {
      WaitsFirst(p);
    } else {
      WaitsThrough(p, n - 1);
      StillNext(p, 0.0, BANDLESS, p.step <= 0.0, n - 1);
      WaitsOn(p, AfterStill(p, 0.0, BANDLESS, p.step <= 0.0, n - 1).local, n - 1,
              if n - 1 <= Warming(p) then 0 else n - 1 - Warming(p));
    }
  }

  lemma WaitsFirst(p: Params)
    ensures Waits(AfterStill(p, 0.0, BANDLESS, p.step <= 0.0, 0).local, 0, 0)
  {
  }

  /** Without a positive level step, or with a no-band count no run has to reach, some run of windows ends the no-band
      state on a reference and judges it over no bands at all. */
  lemma BandsLag(p: Params)
    requires p.step <= 0.0 || p.noBand <= 0
    ensures var n := Warming(p) + if p.noBand <= 0 then 1 else p.noBand;
            Lags(AfterStill(p, 0.0, BANDLESS, p.step <= 0.0, n).local)
  {
    hide Heard, Run, Waits, Lags;
    var n := Warming(p) + if p.noBand <= 0 then 0 else p.noBand - 1;
    WaitsThrough(p, n);
    StillNext(p, 0.0, BANDLESS, p.step <= 0.0, n);
    WaitsOn(p, AfterStill(p, 0.0, BANDLESS, p.step <= 0.0, n).local, n, if n <= Warming(p) then 0 else n - Warming(p));
  }

  /** The bands taking part are the reference's own after every run, of every signal from every seed, exactly when the
      level step is positive and the no-band count at least one. */
  lemma BandsFollowIff(p: Params)
    ensures (forall a, seed, key, ws | Seed(seed) :: InSync(a, Run(a, p, seed, key, ws).local))
            <==> p.step > 0.0 && p.noBand >= 1
  {
    hide Run, InSync;
    if p.step > 0.0 && p.noBand >= 1 {
      forall a, seed, key, ws | Seed(seed) ensures InSync(a, Run(a, p, seed, key, ws).local) {
        BandsFollowReference(a, p, seed, key, ws);
      }
    } else {
      BandsLag(p);
      var n := Warming(p) + if p.noBand <= 0 then 1 else p.noBand;
      LagsOutOfSync(Still(0.0), AfterStill(p, 0.0, BANDLESS, p.step <= 0.0, n).local);
      assert !InSync(Still(0.0), Run(Still(0.0), p, BANDLESS, 0, Windows(p.step <= 0.0, n)).local);
    }
  }

  lemma LagsOutOfSync(a: Acoustics, l: Local)
    requires Lags(l)
    ensures !InSync(a, l)
  {
  }

  // ---- The gate

  const LEARNED := Core(Known, Some(SPOT), None, None, false)

  /** A judging learner with no open gate's evidence against it. */
  predicate Judges(l: Local) {
    Judging(l.book.core) && l.book.core.alt.None? && l.ev.part.Some?
  }

  lemma JudgesOn(p: Params, q: real, l: Local)
    requires Sane(l) && Judges(l)
    ensures var (h, out) := Heard(Still(q), p, l, StillWindow(false));
            Judges(h) && out.q == Some(q) && out.gate == (q >= if l.ev.gate then CloseDb(p.n) else p.n)
  {
    hide Acted, Grows, CloseDb;
  }

  ghost predicate EverOpens(p: Params, key: int, ws: seq<Window>, outs: seq<Out>)
    requires |ws| == |outs|
  {
    exists j: nat :: OpenSince(p, key, ws, outs, j)
  }

  /** Two windows of n dB under a threshold below the close floor: the first opens the gate, the second shuts it. */
  lemma GateChatters(p: Params)
    requires p.n < CLOSE_FLOOR_DB
    ensures var ws := [StillWindow(false), StillWindow(false)];
            var outs := Outs(Still(p.n), p, LEARNED, 0, ws);
            outs[0].gate && !outs[1].gate && EverOpens(p, 0, ws, outs)
  {
    hide Heard, Judges, Still;
    var a, w := Still(p.n), StillWindow(false);
    var s0 := Start(a, LEARNED, 0);
    Begins(p);
    JudgesOn(p, p.n, s0.local);
    var s1 := Next(a, p, s0, w).0;
    JudgesOn(p, p.n, s1.local);
    TwoOuts(a, p, w);
    var ws, outs := [w, w], Outs(a, p, LEARNED, 0, [w, w]);
    assert OpenSince(p, 0, ws, outs, 1);
  }

  lemma Begins(p: Params)
    ensures Seed(LEARNED) && Judges(Start(Still(p.n), LEARNED, 0).local) && !Start(Still(p.n), LEARNED, 0).local.ev.gate
  {
  }

  lemma TwoOuts(a: Acoustics, p: Params, w: Window)
    ensures var s1 := Next(a, p, Start(a, LEARNED, 0), w);
            Outs(a, p, LEARNED, 0, [w, w]) == [s1.1, Next(a, p, s1.0, w).1]
  {
    hide Next, Start;
    assert [w, w][..1] == [w] && [w][..0] == [];
  }

  /** A window of n dB, or without a band, since which every window kept the close threshold always means an open gate,
      whatever the signal and the seed, exactly when n is no lower than the close floor. */
  lemma GateHeldIff(p: Params)
    ensures (forall a, seed, key, ws | Seed(seed) && ws != [] && EverOpens(p, key, ws, Outs(a, p, seed, key, ws)) ::
               Outs(a, p, seed, key, ws)[|ws| - 1].gate)
            <==> p.n >= CLOSE_FLOOR_DB
  {
    hide Outs, OpenSince;
    if p.n >= CLOSE_FLOOR_DB {
      forall a, seed, key, ws | Seed(seed) && ws != [] && EverOpens(p, key, ws, Outs(a, p, seed, key, ws))
        ensures Outs(a, p, seed, key, ws)[|ws| - 1].gate
      {
        GateTracesBack(a, p, seed, key, ws);
      }
    } else {
      GateChatters(p);
      var ws := [StillWindow(false), StillWindow(false)];
      assert Seed(LEARNED) && EverOpens(p, 0, ws, Outs(Still(p.n), p, LEARNED, 0, ws));
    }
  }

  // ---- The modes

  lemma {:induction false} KnownWarms(p: Params, n: nat)
    requires n <= Warming(p)
    ensures var l := AfterStill(p, 0.0, LEARNED, false, n).local;
            l.book == Book(LEARNED, []) && l.ev.run == n && l.ev.stretch.None?
    decreases n
  {
    hide Run, Measured, Grows;
    if n == 0 {
      KnownFirst(p);
    } else {
      KnownWarms(p, n - 1);
      StillNext(p, 0.0, LEARNED, false, n - 1);
    }
  }

  lemma KnownFirst(p: Params)
    ensures var l := AfterStill(p, 0.0, LEARNED, false, 0).local;
            l.book == Book(LEARNED, []) && l.ev.run == 0 && l.ev.stretch.None?
  {
  }

  /** With a no-band count of 0 or less a known source passes through no band to provisional in one window. */
  lemma KnownForgets(p: Params)
    requires p.noBand <= 0
    ensures AfterStill(p, 0.0, LEARNED, false, Warming(p)).local.book.core.mode == Known
    ensures AfterStill(p, 0.0, LEARNED, false, Warming(p) + 1).local.book.core.mode == Provisional
  {
    hide Run, Acted, Grows;
    KnownWarms(p, Warming(p));
    StillNext(p, 0.0, LEARNED, false, Warming(p));
  }

  /** Every window of a context takes the mode along an edge of the graph, in every run, exactly when the no-band count
      is at least one. */
  lemma ModeGraphIff(p: Params)
    ensures (forall a, seed, key, ws, w: Window | Seed(seed) && w.key == Run(a, p, seed, key, ws).key ::
               Edge(Run(a, p, seed, key, ws).local.book.core.mode,
                    Next(a, p, Run(a, p, seed, key, ws), w).0.local.book.core.mode))
            <==> p.noBand >= 1
  {
    hide Run, Next, Edge;
    if p.noBand >= 1 {
      forall a, seed, key, ws, w: Window | Seed(seed) && w.key == Run(a, p, seed, key, ws).key
        ensures Edge(Run(a, p, seed, key, ws).local.book.core.mode,
                     Next(a, p, Run(a, p, seed, key, ws), w).0.local.book.core.mode)
      {
        ModeGraph(a, p, Run(a, p, seed, key, ws), w);
      }
    } else {
      var n, w := Warming(p), StillWindow(false);
      KnownForgets(p);
      StillKey(p, 0.0, LEARNED, false, n);
      RunNext(Still(0.0), p, LEARNED, 0, Windows(false, n), w);
      NoEdgeBack();
      assert Seed(LEARNED) && w.key == Run(Still(0.0), p, LEARNED, 0, Windows(false, n)).key;
      assert Windows(false, n + 1) == Windows(false, n) + [w];
    }
  }

  lemma NoEdgeBack()
    ensures !Edge(Known, Provisional)
  {
  }
}
