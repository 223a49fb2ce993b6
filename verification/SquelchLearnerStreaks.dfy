/** The runs in a row the learner waits for, told from the windows: thin runs before it gives up on a band, runs that
    show one before it leaves that, runs near one level before it acts on it; and the voice band of a stretch's runs. */
module SquelchLearnerStreaks {
  import opened Wrappers
  import opened SquelchLearner
  import opened SquelchLearnerTiming
  import opened SquelchLearnerRefuting
  import opened SquelchLearnerStepping
  import opened SquelchLearnerBack

  // ---- Runs in a row

  /** Thin runs in a row, runs in a row that show a band while none is taken to be there, the level being confirmed and
      how many runs in a row were near it. */
  datatype Streaks = Streaks(thin: nat, shown: nat, level: Option<real>, near: nat)

  const NONE := Streaks(0, 0, None, 0)

  /** The run carries too little of the band above a steady voice band, at the reference's level or with none. */
  predicate IsThin(a: Acoustics, p: Params, c: Core, r: Reading) {
    && r.vSteady && a.usable(Some(a.participating(r.ref))) < 1200.0
    && (c.ref.None? || a.total(r.ref) >= a.total(c.ref.value) - p.step)
  }

  predicate Shows(a: Acoustics, r: Reading) {
    r.steady && r.vSteady && a.usable(Some(a.participating(r.ref))) >= 1200.0
  }

  /** The run's level is not its stretch's. */
  predicate IsApart(a: Acoustics, p: Params, s: Option<Stretch>, r: Reading) {
    s.None? || a.total(r.ref) - s.value.a >= p.step || s.value.a - a.total(r.ref) >= p.step
  }

  predicate IsNear(a: Acoustics, p: Params, level: Option<real>, r: Reading) {
    level.Some? && -p.step < a.total(r.ref) - level.value < p.step
  }

  /** The streaks with one run more, before it acts: that a band is given up on, that the no-band state ends, and that
      the run is of a new level. */
  datatype Met = Met(streaks: Streaks, givenUp: bool, ended: bool, other: bool)

  function Meet(a: Acoustics, p: Params, l: Local, r: Reading, x: Streaks): Met {
    var thin := if IsThin(a, p, l.book.core, r) then x.thin + 1 else 0;
    var givenUp := thin >= p.noBand;
    var shown := if (givenUp || l.book.core.mode == NoBand) && Shows(a, r) then x.shown + 1 else 0;
    var ended := shown >= p.noBand;
    var level, near := if ended then Some(a.total(r.ref)) else x.level, if ended then 3 else x.near;
    var other := r.steady && (ended || IsApart(a, p, l.ev.stretch, r));
    var streaks :=
      if !other then Streaks(thin, if ended then 0 else shown, None, 0)
      else if IsNear(a, p, level, r) then Streaks(thin, if ended then 0 else shown, level, near + 1)
      else Streaks(thin, if ended then 0 else shown, Some(a.total(r.ref)), 1);
    Met(streaks, givenUp, ended, other)
  }

  predicate StreaksHold(e: Evidence, x: Streaks) {
    e.nb == x.thin && e.exitN == x.shown && e.candA == x.level && e.candN == x.near
  }

  /** A run acts on its stretch's level at once, and on a new one at the third run in a row near it. */
  lemma ReadyMeets(a: Acoustics, p: Params, l: Local, r: Reading, x: Streaks)
    requires Sane(l) && StreaksHold(l.ev, x)
    ensures var z, met := Ready(a, p, l, r), Meet(a, p, l, r, x);
            && StreaksHold(z.ev, met.streaks)
            && (IsNew(a, p, z.ev, r) <==> met.other)
            && (Acts(a, p, z.ev, r) <==> r.steady && (!met.other || met.streaks.near >= 3))
            && z.book.core.mode == if met.ended then Provisional else if met.givenUp then NoBand else l.book.core.mode
  {
    hide Replaced, Grows;
  }

  /** The streaks after a window: a silent one ends them but for the level, another context and a restart end all, and
      acting on a new level ends its count. */
  ghost function WindowMet(a: Acoustics, p: Params, s: State, w: Window, x: Streaks): Streaks
    requires Well(s)
  {
    ArrivedWell(a, s, w);
    var kept := if w.key != s.key || w.restart then NONE else x;
    match Found(a, p, s, w)
    case None => if w.silent then Streaks(0, 0, kept.level, 0) else kept
    case Some(z) =>
      var met := Meet(a, p, Counting(a, s, w), w.run, kept);
      if w.run.steady && met.other && met.streaks.near >= 3 then met.streaks.(level := None, near := 0) else met.streaks
  }

  lemma ArrivedStreaks(a: Acoustics, s: State, w: Window, x: Streaks)
    requires StreaksHold(s.local.ev, x)
    ensures StreaksHold(Arrived(a, s, w).local.ev, if w.key != s.key || w.restart then NONE else x)
  {
  }

  lemma IdleStreaks(a: Acoustics, p: Params, s: State, w: Window)
    requires Well(s) && Found(a, p, s, w).None?
    ensures var e, y := Arrived(a, s, w).local.ev, Next(a, p, s, w).0.local.ev;
            && y.nb == (if w.silent then 0 else e.nb) && y.exitN == (if w.silent then 0 else e.exitN)
            && y.candA == e.candA && y.candN == if w.silent then 0 else e.candN
  {
    hide Measured, Gated, Arrived, Grows;
    ArrivedWell(a, s, w);
  }

  lemma ActedStreaks(a: Acoustics, p: Params, z: Local, r: Reading, x: Streaks)
    requires Sane(z) && Acts(a, p, z.ev, r) && StreaksHold(z.ev, x)
    ensures StreaksHold(Acted(a, p, z, r).ev, if IsNew(a, p, z.ev, r) then x.(level := None, near := 0) else x)
  {
    hide Begun, Weighed, IsNew, Acts, Grows;
  }

  lemma NextStreaks(a: Acoustics, p: Params, s: State, w: Window, x: Streaks)
    requires Well(s) && StreaksHold(s.local.ev, x)
    ensures StreaksHold(Next(a, p, s, w).0.local.ev, WindowMet(a, p, s, w, x))
  {
    hide Next, Arrived, Ready, Acted, Acts, IsNew, Meet, Grows;
    ArrivedWell(a, s, w);
    ArrivedStreaks(a, s, w, x);
    NextFrom(a, p, s, w);
    var kept := if w.key != s.key || w.restart then NONE else x;
    match Found(a, p, s, w)
    case None => IdleStreaks(a, p, s, w);
    case Some(z) =>
      var l := Counting(a, s, w);
      ReadyMeets(a, p, l, w.run, kept);
      if Acts(a, p, z.ev, w.run) {
        ActedStreaks(a, p, z, w.run, Meet(a, p, l, w.run, kept).streaks);
      }
  }

  /** The streaks of the windows so far. */
  ghost function StreaksOf(a: Acoustics, p: Params, s: State, ws: seq<Window>): Streaks
    requires Well(s)
    decreases |ws|
  {
    if ws == [] then NONE
    else
      var n := |ws| - 1;
      WindowMet(a, p, After(a, p, s, ws[..n]), ws[n], StreaksOf(a, p, s, ws[..n]))
  }

  lemma {:induction false} StreaksKept(a: Acoustics, p: Params, s: State, ws: seq<Window>)
    requires Well(s) && StreaksHold(s.local.ev, NONE)
    ensures StreaksHold(After(a, p, s, ws).local.ev, StreaksOf(a, p, s, ws))
    decreases |ws|
  {
    hide Next, WindowMet, StreaksHold, Grows;
    if ws != [] {
      var n := |ws| - 1;
      StreaksKept(a, p, s, ws[..n]);
      NextStreaks(a, p, After(a, p, s, ws[..n]), ws[n], StreaksOf(a, p, s, ws[..n]));
    }
  }

  /** Over every run from a state without streaks, of a window that measures a run: it gives up on a band, ends the
      no-band state and acts exactly when its streaks, with its own run, are long enough. */
  lemma StreaksDecide(a: Acoustics, p: Params, s: State, ws: seq<Window>, w: Window)
    requires Well(s) && StreaksHold(s.local.ev, NONE) && Found(a, p, After(a, p, s, ws), w).Some?
    ensures var u := After(a, p, s, ws);
            var z, l := Found(a, p, u, w).value, Counting(a, u, w);
            var met := Meet(a, p, l, w.run, if w.key != u.key || w.restart then NONE else StreaksOf(a, p, s, ws));
            && (Acts(a, p, z.ev, w.run) <==> w.run.steady && (!met.other || met.streaks.near >= 3))
            && z.book.core.mode == if met.ended then Provisional else if met.givenUp then NoBand else l.book.core.mode
  {
    hide Next, Arrived, Ready, Acts, IsNew, Meet, StreaksOf, After, Grows;
    var u := After(a, p, s, ws);
    StreaksKept(a, p, s, ws);
    ArrivedWell(a, u, w);
    ArrivedStreaks(a, u, w, StreaksOf(a, p, s, ws));
    ReadyMeets(a, p, Counting(a, u, w), w.run, if w.key != u.key || w.restart then NONE else StreaksOf(a, p, s, ws));
  }

  // ---- The voice band of a stretch

  function PowerOf(a: Acoustics, runs: seq<Reading>): real {
    if runs == [] then 0.0 else PowerOf(a, runs[..|runs| - 1]) + a.power(runs[|runs| - 1].ref.voice)
  }

  function SteadyRuns(runs: seq<Reading>): nat {
    if runs == [] then 0 else SteadyRuns(runs[..|runs| - 1]) + if runs[|runs| - 1].vSteady then 1 else 0
  }

  predicate VoicesHold(a: Acoustics, stretch: Option<Stretch>, runs: seq<Reading>) {
    stretch.Some? ==> stretch.value.voice == Voice(PowerOf(a, runs), |runs|, SteadyRuns(runs))
  }

  /** The runs that acted on the stretch so far, from the one that began it. */
  ghost function StretchRuns(a: Acoustics, p: Params, s: State, ws: seq<Window>): seq<Reading>
    requires Well(s)
    decreases |ws|
  {
    if ws == [] then []
    else
      var n := |ws| - 1;
      var u, w, before := After(a, p, s, ws[..n]), ws[n], StretchRuns(a, p, s, ws[..n]);
      match Found(a, p, u, w)
      case None => before
      case Some(z) =>
        if !Acts(a, p, z.ev, w.run) then before else if IsNew(a, p, z.ev, w.run) then [w.run] else before + [w.run]
  }

  lemma ActedVoices(a: Acoustics, p: Params, z: Local, r: Reading, runs: seq<Reading>)
    requires Sane(z) && Acts(a, p, z.ev, r) && (IsNew(a, p, z.ev, r) || VoicesHold(a, z.ev.stretch, runs))
    ensures VoicesHold(a, Acted(a, p, z, r).ev.stretch, if IsNew(a, p, z.ev, r) then [r] else runs + [r])
  {
    hide Weighed, Judged, IsNew, Acts, Grows;
    NewIfNone(a, p, z.ev, r);
    assert [r][..0] == [] && (runs + [r])[..|runs|] == runs;
    assert PowerOf(a, []) == 0.0 && SteadyRuns([]) == 0;
  }

  /** Over every run from a state with no stretch begun: a stretch's voice band is the mean power of its own runs, and
      as steady as they were. */
  lemma {:induction false} VoicesAreRuns(a: Acoustics, p: Params, s: State, ws: seq<Window>)
    requires Well(s) && s.local.ev.stretch.None?
    ensures VoicesHold(a, After(a, p, s, ws).local.ev.stretch, StretchRuns(a, p, s, ws))
    decreases |ws|
  {
    hide Next, Arrived, Ready, Acted, Acts, IsNew, PowerOf, SteadyRuns, Grows;
    if ws != [] {
      var n := |ws| - 1;
      VoicesAreRuns(a, p, s, ws[..n]);
      var u, w := After(a, p, s, ws[..n]), ws[n];
      NextFrom(a, p, u, w);
      ArrivedStretch(a, u, w);
      if Found(a, p, u, w).Some? {
        FoundFollows(a, p, u, w);
        var z := Found(a, p, u, w).value;
        if Acts(a, p, z.ev, w.run) {
          NewIfNone(a, p, z.ev, w.run);
          ActedVoices(a, p, z, w.run, StretchRuns(a, p, s, ws[..n]));
        }
      }
    }
  }
}
