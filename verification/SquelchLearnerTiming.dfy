/** How long the learner takes to change its mind: a step just taken, taken back or refuted stands for at least ten
    windows before a refutation, and a refuted step is not taken back within forty. */
module SquelchLearnerTiming {
  import opened Wrappers
  import opened SquelchLearner

  /** What was added to a history holds a refutation, or a step taken back, only as said. */
  ghost predicate Adds(b: Book, x: Book, refutation: bool, takeBack: bool) {
    && b.log <= x.log
    && forall r :: |b.log| <= r < |x.log| ==>
         (x.log[r].kind == Refutation ==> refutation) && (x.log[r].kind == TakeBack ==> takeBack)
  }

  lemma AddsOn(b: Book, c: Book, d: Book, refutation: bool, takeBack: bool)
    requires Adds(b, c, refutation, takeBack) && Adds(c, d, refutation, takeBack)
    ensures Adds(b, d, refutation, takeBack)
  {
    forall r | |b.log| <= r < |d.log|
      ensures (d.log[r].kind == Refutation ==> refutation) && (d.log[r].kind == TakeBack ==> takeBack)
    {
      assert r < |c.log| ==> d.log[r] == c.log[r];
    }
  }

  lemma AddsWeaker(b: Book, x: Book, refutation: bool, takeBack: bool, refutation': bool, takeBack': bool)
    requires Adds(b, x, refutation, takeBack) && (refutation ==> refutation') && (takeBack ==> takeBack')
    ensures Adds(b, x, refutation', takeBack')
  {
  }

  /** One more entry, of the kind said. */
  lemma AddsOne(b: Book, x: Book, e: Entry)
    requires x.log == b.log + [e]
    ensures Adds(b, x, e.kind == Refutation, e.kind == TakeBack)
  {
  }

  /** Marks against the held step so far. */
  function Rung(stretch: Option<Stretch>): nat {
    if stretch.None? then 0 else |stretch.value.ring|
  }

  // ---- One run

  /** Only replacements and drift were added. */
  ghost predicate Plain(b: Book, x: Book) {
    b.log <= x.log && forall r :: |b.log| <= r < |x.log| ==> x.log[r].kind == Replacement || x.log[r].kind == Drift
  }

  lemma JudgedPlain(a: Acoustics, p: Params, b: Book, stretch: Option<Stretch>, noise: Option<real>, r: Reading)
    requires Coherent(b.core) && (stretch.Some? ==> stretch.value.voice.n > 0)
    ensures Plain(b, Judged(a, p, b, stretch, noise, r).0)
  {
  }

  lemma AddsNothing(b: Book)
    ensures Adds(b, b, false, false)
  {
  }

  /** A refutation needs nine marks before its own. */
  lemma RefuteAdds(a: Acoustics, p: Params, w: Work, louder: bool, r: Reading)
    requires Fit(w)
    ensures var x := Refute(a, p, w, louder, r);
            && Adds(w.book, x.book, |w.stretch.ring| >= REFUTE_RUNS - 1, false)
            && |x.stretch.ring| <= |w.stretch.ring| + 1 && x.back.n <= w.back.n
            && (x.book.log != w.book.log ==> x.stretch.ring == [] && x.back == NO_BACK)
  {
    hide Against, Marks;
    AddsNothing(w.book);
    if w.book.core.prior.Some? {
      AddsOne(w.book, Refuted(w.book), Entry(Refutation, w.book.core.ref, Some(w.book.core.prior.value.ref)));
    }
  }

  /** Taking a step back needs thirty-nine runs before its own. */
  lemma TakeStepBackAdds(a: Acoustics, w: Work, r: Reading)
    requires Fit(w)
    ensures var x := TakeStepBack(a, w, r);
            && Adds(w.book, x.book, false, w.back.n >= BACK_HOLD - 1)
            && |x.stretch.ring| <= |w.stretch.ring| && x.back.n <= w.back.n + 1
            && (x.book.log != w.book.log ==> x.stretch.ring == [])
  {
    AddsNothing(w.book);
    if w.book.core.alt.Some? {
      var ref := a.shifted(w.book.core.alt.value, Gathered(w.back, a.noiseStep(r.ref, w.book.core.alt.value,
                                                           Some(a.participating(w.book.core.alt.value))), r).step);
      AddsOne(w.book, TakenBack(w.book, ref), Entry(TakeBack, w.book.core.ref, Some(ref)));
    }
  }

  /** A step taken on evidence, a drift, or nothing: the marks go with a step, and the rest stands. */
  ghost predicate Settles(w: Work, x: Work) {
    && Adds(w.book, x.book, false, false)
    && |x.stretch.ring| <= |w.stretch.ring| && x.back == w.back
    && ((exists r :: |w.book.log| <= r < |x.book.log| && x.book.log[r].kind == Step) ==> x.stretch.ring == [])
  }

  lemma SettlesOn(w: Work, x: Work, y: Work)
    requires Settles(w, x) && Settles(x, y)
    ensures Settles(w, y)
  {
    AddsOn(w.book, x.book, y.book, false, false);
    if r :| |w.book.log| <= r < |y.book.log| && y.book.log[r].kind == Step {
      assert r < |x.book.log| ==> y.book.log[r] == x.book.log[r];
    }
  }

  lemma StepSettles(a: Acoustics, w: Work, ref: Ref)
    requires Fit(w) && w.book.core.ref.Some?
    ensures var x := StepTaken(a, w, ref);
            Adds(w.book, x.book, false, false) && x.stretch.ring == [] && x.back == w.back
  {
    AddsOne(w.book, Stepped(w.book, ref), Entry(Step, w.book.core.ref, Some(ref)));
  }

  lemma LoweredSettles(a: Acoustics, w: Work, r: Reading)
    requires Fit(w)
    ensures Settles(w, Lowered(a, w, r))
  {
    hide MovedDown, Mean, Counted, Hold;
    AddsNothing(w.book);
    if w.book.core.ref.Some? {
      forall ref ensures Adds(w.book, Stepped(w.book, ref), false, false) {
        AddsOne(w.book, Stepped(w.book, ref), Entry(Step, w.book.core.ref, Some(ref)));
      }
    }
  }

  lemma GainedSettles(a: Acoustics, w: Work, r: Reading)
    requires Fit(w)
    ensures Settles(w, Gained(a, w, r))
  {
    hide MovedDown, Mean, Counted;
    AddsNothing(w.book);
    if w.book.core.ref.Some? {
      forall ref ensures Adds(w.book, Stepped(w.book, ref), false, false) {
        AddsOne(w.book, Stepped(w.book, ref), Entry(Step, w.book.core.ref, Some(ref)));
      }
    }
  }

  lemma StaledSettles(a: Acoustics, w: Work, gate: bool, r: Reading)
    requires Fit(w)
    ensures Settles(w, Staled(a, w, gate, r))
  {
    AddsNothing(w.book);
    if w.book.core.ref.Some? {
      StepSettles(a, w, r.ref);
    }
  }

  lemma TrailedSettles(a: Acoustics, w: Work, r: Reading)
    requires Fit(w)
    ensures Settles(w, Trailed(a, w, r))
  {
    AddsNothing(w.book);
    if w.book.core.ref.Some? {
      var ref := a.blended(w.book.core.ref.value, r.ref);
      AddsOne(w.book, Drifted(w.book, ref), Entry(Drift, w.book.core.ref, Some(ref)));
    }
  }

  // ---- One window

  /** A step was taken, taken back or refuted. */
  ghost predicate Marked(b: Book, x: Book) {
    exists r :: |b.log| <= r < |x.log|
        && (x.log[r].kind == Step || x.log[r].kind == TakeBack || x.log[r].kind == Refutation)
  }

  ghost predicate Undone(b: Book, x: Book) {
    exists r :: |b.log| <= r < |x.log| && x.log[r].kind == Refutation
  }

  /** What one window may do, by the marks and the evidence it started from, and what it leaves of them. */
  ghost predicate Paced(b: Book, rung: nat, back: nat, x: Book, rung': nat, back': nat) {
    && Adds(b, x, rung >= REFUTE_RUNS - 1, back >= BACK_HOLD - 1)
    && rung' <= rung + 1 && back' <= back + 1
    && (Marked(b, x) ==> rung' == 0)
    && (Undone(b, x) ==> back' <= 1)
  }

  /** A window's phases: a refutation first, then a step taken back, then what settles. */
  lemma WeighedPaced(a: Acoustics, p: Params, w: Work, louder: bool, gate: bool, r: Reading)
    requires Fit(w)
    ensures var x := Weighed(a, p, w, louder, gate, r);
            Paced(w.book, |w.stretch.ring|, w.back.n, x.book, |x.stretch.ring|, x.back.n)
  {
    hide Refute, TakeStepBack, Lowered, Gained, Staled, Trailed, Settles;
    RefuteAdds(a, p, w, louder, r);
    var x1 := Refute(a, p, w, louder, r);
    TakeStepBackAdds(a, x1, r);
    var x2 := TakeStepBack(a, x1, r);
    LoweredSettles(a, x2, r);
    var x3 := Lowered(a, x2, r);
    GainedSettles(a, x3, r);
    var x4 := Gained(a, x3, r);
    StaledSettles(a, x4, gate, r);
    var x5 := Staled(a, x4, gate, r);
    TrailedSettles(a, x5, r);
    var x := Trailed(a, x5, r);
    SettlesOn(x2, x3, x4);
    SettlesOn(x2, x4, x5);
    SettlesOn(x2, x5, x);
    PhasesPaced(w, x1, x2, x);
  }

  lemma PhasesPaced(w: Work, x1: Work, x2: Work, x: Work)
    requires Adds(w.book, x1.book, |w.stretch.ring| >= REFUTE_RUNS - 1, false)
    requires |x1.stretch.ring| <= |w.stretch.ring| + 1 && x1.back.n <= w.back.n
    requires x1.book.log != w.book.log ==> x1.stretch.ring == [] && x1.back == NO_BACK
    requires Adds(x1.book, x2.book, false, x1.back.n >= BACK_HOLD - 1)
    requires |x2.stretch.ring| <= |x1.stretch.ring| && x2.back.n <= x1.back.n + 1
    requires x2.book.log != x1.book.log ==> x2.stretch.ring == []
    requires Settles(x2, x)
    ensures Paced(w.book, |w.stretch.ring|, w.back.n, x.book, |x.stretch.ring|, x.back.n)
  {
    var rung, back := |w.stretch.ring| >= REFUTE_RUNS - 1, w.back.n >= BACK_HOLD - 1;
    AddsWeaker(w.book, x1.book, rung, false, rung, back);
    AddsWeaker(x1.book, x2.book, false, x1.back.n >= BACK_HOLD - 1, rung, back);
    AddsWeaker(x2.book, x.book, false, false, rung, back);
    AddsOn(w.book, x1.book, x2.book, rung, back);
    AddsOn(w.book, x2.book, x.book, rung, back);
    if Marked(w.book, x.book) {
      var r :| |w.book.log| <= r < |x.book.log|
               && (x.book.log[r].kind == Step || x.book.log[r].kind == TakeBack || x.book.log[r].kind == Refutation);
      assert r < |x2.book.log| ==> x2.book.log != w.book.log;
    }
    if Undone(w.book, x.book) {
      var r :| |w.book.log| <= r < |x.book.log| && x.book.log[r].kind == Refutation;
      assert r < |x2.book.log| ==> x.book.log[r] == x2.book.log[r];
      assert r < |x1.book.log| ==> x1.book.log != w.book.log;
    }
  }

  ghost predicate LocalPaced(l: Local, x: Local) {
    Paced(l.book, Rung(l.ev.stretch), l.ev.back.n, x.book, Rung(x.ev.stretch), x.ev.back.n)
  }

  lemma ActedPaced(a: Acoustics, p: Params, l: Local, r: Reading)
    requires Sane(l) && Acts(a, p, l.ev, r)
    ensures LocalPaced(l, Acted(a, p, l, r))
  {
    hide Weighed, Judged, Paced, Grows;
    var c := l.book.core;
    var louder := Judging(c) && a.louder(r.ref, c.ref.value, l.ev.part, 1.0);
    var w := Begun(a, p, l, r);
    WeighedPaced(a, p, w, louder, l.ev.gate, r);
    var noise := if Judging(c) then a.noiseStep(r.ref, c.ref.value, l.ev.part) else None;
    if IsNew(a, p, l.ev, r) {
      JudgedPlain(a, p, l.book, l.ev.stretch, noise, r);
    }
    PacedAfter(l.book, Rung(l.ev.stretch), l.ev.back.n, w.book, |w.stretch.ring|, w.back.n,
               Acted(a, p, l, r).book, Rung(Acted(a, p, l, r).ev.stretch), Acted(a, p, l, r).ev.back.n);
  }

  /** What adds no step and undoes none may come first. */
  lemma PacedAfter(b: Book, rung: nat, back: nat, y: Book, rung1: nat, back1: nat, x: Book, rung2: nat, back2: nat)
    requires Plain(b, y) && rung1 <= rung && back1 <= back
    requires Paced(y, rung1, back1, x, rung2, back2)
    ensures Paced(b, rung, back, x, rung2, back2)
  {
    AddsWeaker(b, y, false, false, rung >= REFUTE_RUNS - 1, back >= BACK_HOLD - 1);
    AddsWeaker(y, x, rung1 >= REFUTE_RUNS - 1, back1 >= BACK_HOLD - 1, rung >= REFUTE_RUNS - 1, back >= BACK_HOLD - 1);
    AddsOn(b, y, x, rung >= REFUTE_RUNS - 1, back >= BACK_HOLD - 1);
    forall r | |b.log| <= r < |y.log| ensures x.log[r].kind == Replacement || x.log[r].kind == Drift {
      assert x.log[r] == y.log[r];
    }
  }

  lemma IdlePaced(b: Book, rung: nat, back: nat, rung': nat, back': nat)
    ensures rung' <= rung && back' <= back ==> Paced(b, rung, back, b, rung', back')
  {
  }

  lemma MeasuredPaced(a: Acoustics, p: Params, l: Local, r: Reading)
    requires Sane(l)
    ensures LocalPaced(l, Measured(a, p, l, r))
  {
    hide Acted, Grows, Thin, Paced, IsNew;
    var y := Widened(a, p, Narrowed(a, p, Doubted(a, l, r), r), r);
    assert Plain(l.book, y.book);
    var z := y.(ev := Confirmed(a, p, y.ev, r));
    if Acts(a, p, z.ev, r) {
      ActedPaced(a, p, z, r);
      var x := Acted(a, p, z, r);
      PacedAfter(l.book, Rung(l.ev.stretch), l.ev.back.n, z.book, Rung(z.ev.stretch), z.ev.back.n,
                 x.book, Rung(x.ev.stretch), x.ev.back.n);
    } else {
      IdlePaced(z.book, Rung(z.ev.stretch), z.ev.back.n, Rung(z.ev.stretch), z.ev.back.n);
      PacedAfter(l.book, Rung(l.ev.stretch), l.ev.back.n, z.book, Rung(z.ev.stretch), z.ev.back.n,
                 z.book, Rung(z.ev.stretch), z.ev.back.n);
    }
  }

  lemma NextPaced(a: Acoustics, p: Params, s: State, w: Window)
    requires Well(s) && w.key == s.key
    ensures LocalPaced(s.local, Next(a, p, s, w).0.local) && Next(a, p, s, w).0.key == s.key
  {
    hide Measured, Paced, Grows;
    var t := Arrived(a, s, w);
    var l := t.local.(ev := t.local.ev.(run := t.local.ev.run + 1));
    MeasuredPaced(a, p, l, w.run);
    var x := Next(a, p, s, w).0.local;
    IdlePaced(s.local.book, Rung(s.local.ev.stretch), s.local.ev.back.n, Rung(x.ev.stretch), x.ev.back.n);
    PacedFrom(l.book, Rung(l.ev.stretch), l.ev.back.n, Rung(s.local.ev.stretch), s.local.ev.back.n,
              Measured(a, p, l, w.run).book, Rung(Measured(a, p, l, w.run).ev.stretch),
              Measured(a, p, l, w.run).ev.back.n);
  }

  lemma PacedFrom(b: Book, rung0: nat, back0: nat, rung: nat, back: nat, x: Book, rung': nat, back': nat)
    ensures rung0 <= rung && back0 <= back && Paced(b, rung0, back0, x, rung', back') ==>
            Paced(b, rung, back, x, rung', back')
  {
  }

  // ---- Any number of windows

  function After(a: Acoustics, p: Params, s: State, ws: seq<Window>): (t: State)
    requires Well(s)
    ensures Well(t)
  {
    if ws == [] then s else Next(a, p, After(a, p, s, ws[..|ws| - 1]), ws[|ws| - 1]).0
  }

  /** Every window is of the context s is in. */
  ghost predicate Stays(s: State, ws: seq<Window>) {
    forall i :: 0 <= i < |ws| ==> ws[i].key == s.key
  }

  lemma {:induction false} AfterPaced(a: Acoustics, p: Params, s: State, ws: seq<Window>)
    requires Well(s) && Stays(s, ws)
    ensures var t, l := After(a, p, s, ws), s.local;
            && t.key == s.key
            && Rung(t.local.ev.stretch) <= Rung(l.ev.stretch) + |ws| && t.local.ev.back.n <= l.ev.back.n + |ws|
            && Adds(l.book, t.local.book, Rung(l.ev.stretch) + |ws| >= REFUTE_RUNS, l.ev.back.n + |ws| >= BACK_HOLD)
    decreases |ws|
  {
    hide Next;
    if ws == [] {
      AddsNothing(s.local.book);
    } else {
      var before, w := ws[..|ws| - 1], ws[|ws| - 1];
      AfterPaced(a, p, s, before);
      var u, l := After(a, p, s, before), s.local;
      NextPaced(a, p, u, w);
      var t := Next(a, p, u, w).0;
      var f, g := Rung(l.ev.stretch) + |ws| >= REFUTE_RUNS, l.ev.back.n + |ws| >= BACK_HOLD;
      AddsWeaker(l.book, u.local.book, Rung(l.ev.stretch) + |before| >= REFUTE_RUNS,
          l.ev.back.n + |before| >= BACK_HOLD, f, g);
      AddsWeaker(u.local.book, t.local.book, Rung(u.local.ev.stretch) >= REFUTE_RUNS - 1,
                 u.local.ev.back.n >= BACK_HOLD - 1, f, g);
      AddsOn(l.book, u.local.book, t.local.book, f, g);
    }
  }

  /** A step just taken, taken back or refuted is followed by no refutation in the next nine windows of its context:
      what speaks against a step is counted afresh, over ten runs. */
  lemma NoRefutationWithinTen(a: Acoustics, p: Params, s: State, w: Window, ws: seq<Window>)
    requires Well(s) && w.key == s.key && Stays(s, ws) && |ws| < REFUTE_RUNS
    requires Marked(s.local.book, Next(a, p, s, w).0.local.book)
    ensures var t := Next(a, p, s, w).0;
            !Undone(t.local.book, After(a, p, t, ws).local.book)
  {
    hide Next, Marked;
    NextPaced(a, p, s, w);
    AfterPaced(a, p, Next(a, p, s, w).0, ws);
  }

  /** A step just refuted is not taken back within the next thirty-eight windows, forty with its own run and the one
      that takes it. */
  lemma NoTakeBackWithinForty(a: Acoustics, p: Params, s: State, w: Window, ws: seq<Window>)
    requires Well(s) && w.key == s.key && Stays(s, ws) && |ws| < BACK_HOLD - 1
    requires Undone(s.local.book, Next(a, p, s, w).0.local.book)
    ensures var t := Next(a, p, s, w).0.local.book;
            var x := After(a, p, Next(a, p, s, w).0, ws).local.book;
            t.log <= x.log && forall r :: |t.log| <= r < |x.log| ==> x.log[r].kind != TakeBack
  {
    hide Next, Undone;
    NextPaced(a, p, s, w);
    AfterPaced(a, p, Next(a, p, s, w).0, ws);
  }

  // ---- A refuted step whose evidence keeps matching

  /** The reference was replaced, stepped down or given back its refuted step. */
  ghost predicate Resolved(b: Book, x: Book) {
    b.log <= x.log
    && exists r :: |b.log| <= r < |x.log|
                   && (x.log[r].kind == Replacement || x.log[r].kind == Step || x.log[r].kind == TakeBack)
  }

  /** The refuted step is kept, unless that happened. */
  ghost predicate KeptOrResolved(b: Book, x: Book) {
    Resolved(b, x) || (b.log <= x.log && x.core.alt == b.core.alt)
  }

  lemma KeptOn(b: Book, c: Book, d: Book)
    requires KeptOrResolved(b, c) && KeptOrResolved(c, d)
    ensures KeptOrResolved(b, d)
  {
    if Resolved(b, c) {
      var r :| |b.log| <= r < |c.log|
               && (c.log[r].kind == Replacement || c.log[r].kind == Step || c.log[r].kind == TakeBack);
      assert d.log[r] == c.log[r];
    }
  }

  lemma KeptSame(b: Book, x: Book)
    ensures b.log == x.log && x.core.alt == b.core.alt ==> KeptOrResolved(b, x)
  {
  }

  lemma ResolvedBy(b: Book, x: Book, e: Entry)
    requires x.log == b.log + [e] && (e.kind == Replacement || e.kind == Step || e.kind == TakeBack)
    ensures Resolved(b, x)
  {
    assert x.log[|b.log|] == e;
  }

  lemma ReplacedResolves(b: Book)
    ensures forall ref, mode {:trigger InMode(Replaced(b, ref), mode)} ::
              KeptOrResolved(b, InMode(Replaced(b, ref), mode))
    ensures forall ref {:trigger Replaced(b, ref)} :: KeptOrResolved(b, Replaced(b, ref))
  {
    forall ref ensures KeptOrResolved(b, Replaced(b, ref)) {
      ResolvedBy(b, Replaced(b, ref), Entry(Replacement, b.core.ref, Some(ref)));
    }
    forall ref, mode ensures KeptOrResolved(b, InMode(Replaced(b, ref), mode)) {
      ResolvedBy(b, InMode(Replaced(b, ref), mode), Entry(Replacement, b.core.ref, Some(ref)));
    }
  }

  lemma SteppedResolves(b: Book)
    requires b.core.ref.Some?
    ensures forall ref, mode {:trigger InMode(Stepped(b, ref), mode)} ::
              KeptOrResolved(b, InMode(Stepped(b, ref), mode))
    ensures forall ref {:trigger Stepped(b, ref)} :: KeptOrResolved(b, Stepped(b, ref))
  {
    forall ref ensures KeptOrResolved(b, Stepped(b, ref)) {
      ResolvedBy(b, Stepped(b, ref), Entry(Step, b.core.ref, Some(ref)));
    }
    forall ref, mode ensures KeptOrResolved(b, InMode(Stepped(b, ref), mode)) {
      ResolvedBy(b, InMode(Stepped(b, ref), mode), Entry(Step, b.core.ref, Some(ref)));
    }
  }

  lemma ModeKeeps(b: Book)
    ensures forall mode {:trigger InMode(b, mode)} :: KeptOrResolved(b, InMode(b, mode))
    ensures KeptOrResolved(b, b)
  {
  }

  lemma JudgedKeeps(a: Acoustics, p: Params, b: Book, stretch: Option<Stretch>, noise: Option<real>, r: Reading)
    requires Coherent(b.core) && (stretch.Some? ==> stretch.value.voice.n > 0)
    ensures KeptOrResolved(b, Judged(a, p, b, stretch, noise, r).0)
  {
    hide KeptOrResolved, Replaced, InMode;
    ModeKeeps(b);
    ReplacedResolves(b);
  }

  lemma LoweredKeeps(a: Acoustics, w: Work, r: Reading)
    requires Fit(w)
    ensures KeptOrResolved(w.book, Lowered(a, w, r).book) && Lowered(a, w, r).back == w.back
  {
    hide MovedDown, Mean, Counted, Hold, KeptOrResolved, Stepped, InMode;
    ModeKeeps(w.book);
    if w.book.core.ref.Some? {
      SteppedResolves(w.book);
    }
  }

  lemma GainedKeeps(a: Acoustics, w: Work, r: Reading)
    requires Fit(w)
    ensures KeptOrResolved(w.book, Gained(a, w, r).book) && Gained(a, w, r).back == w.back
  {
    hide MovedDown, Mean, Counted, KeptOrResolved, Stepped, InMode;
    ModeKeeps(w.book);
    if w.book.core.ref.Some? {
      SteppedResolves(w.book);
    }
  }

  lemma StaledKeeps(a: Acoustics, w: Work, gate: bool, r: Reading)
    requires Fit(w)
    ensures KeptOrResolved(w.book, Staled(a, w, gate, r).book) && Staled(a, w, gate, r).back == w.back
  {
    hide KeptOrResolved, Stepped;
    ModeKeeps(w.book);
    if w.book.core.ref.Some? {
      SteppedResolves(w.book);
    }
  }

  lemma TrailedKeeps(a: Acoustics, w: Work, r: Reading)
    requires Fit(w)
    ensures KeptOrResolved(w.book, Trailed(a, w, r).book) && Trailed(a, w, r).back == w.back
  {
    ModeKeeps(w.book);
  }

  /** The run reads as noise at the refuted step's level, steady against the band above. */
  predicate MatchesStep(a: Acoustics, r: Reading, x: Ref) {
    var part := Some(a.participating(x));
    !a.louder(r.ref, x, part, REFUTE_FACTOR) && a.noiseStep(r.ref, x, part).Some? && r.rSteady
  }

  /** The evidence so far is not yet enough. */
  predicate TooEarly(back: Back) {
    back.n < BACK_HOLD || 4 * back.held < 3 * back.n
  }

  /** One run more of evidence, or the step resolved. */
  ghost predicate Advances(b: Book, back: Back, x: Book, back': Back) {
    || Resolved(b, x)
    || (b.log <= x.log && x.core.alt == b.core.alt && back'.n == back.n + 1 && back'.held == back.held + 1
        && TooEarly(back'))
  }

  lemma TakeStepBackAdvances(a: Acoustics, w: Work, r: Reading)
    requires Fit(w) && w.book.core.alt.Some? && MatchesStep(a, r, w.book.core.alt.value)
    ensures var x := TakeStepBack(a, w, r); Advances(w.book, w.back, x.book, x.back)
  {
    var alt := w.book.core.alt.value;
    var back := Gathered(w.back, a.noiseStep(r.ref, alt, Some(a.participating(alt))), r);
    var ref := a.shifted(alt, back.step);
    ResolvedBy(w.book, TakenBack(w.book, ref), Entry(TakeBack, w.book.core.ref, Some(ref)));
  }

  lemma AdvancesOn(b: Book, back: Back, x: Book, back': Back, y: Book)
    requires Advances(b, back, x, back') && KeptOrResolved(x, y)
    ensures Advances(b, back, y, back')
  {
    KeptSame(b, x);
    KeptOn(b, x, y);
  }

  lemma WeighedAdvances(a: Acoustics, p: Params, w: Work, louder: bool, gate: bool, r: Reading)
    requires Fit(w) && w.book.core.alt.Some? && MatchesStep(a, r, w.book.core.alt.value)
    ensures var x := Weighed(a, p, w, louder, gate, r); Advances(w.book, w.back, x.book, x.back)
  {
    hide TakeStepBack, Lowered, Gained, Staled, Trailed, KeptOrResolved, Advances, MatchesStep, Grows;
    var x1 := Refute(a, p, w, louder, r);
    assert x1 == w;
    TakeStepBackAdvances(a, w, r);
    var x2 := TakeStepBack(a, x1, r);
    LoweredKeeps(a, x2, r);
    var x3 := Lowered(a, x2, r);
    GainedKeeps(a, x3, r);
    var x4 := Gained(a, x3, r);
    StaledKeeps(a, x4, gate, r);
    var x5 := Staled(a, x4, gate, r);
    TrailedKeeps(a, x5, r);
    var x := Trailed(a, x5, r);
    AdvancesOn(w.book, w.back, x2.book, x2.back, x3.book);
    AdvancesOn(w.book, w.back, x3.book, x3.back, x4.book);
    AdvancesOn(w.book, w.back, x4.book, x4.back, x5.book);
    AdvancesOn(w.book, w.back, x5.book, x5.back, x.book);
  }

  /** What comes before the run's evidence keeps the refuted step and the evidence, or resolves the step. */
  lemma AdvancesAfter(b: Book, back: Back, y: Book, x: Book, back': Back)
    requires KeptOrResolved(b, y) && y.log <= x.log && (y.core.alt == b.core.alt ==> Advances(y, back, x, back'))
    ensures Advances(b, back, x, back')
  {
    if Resolved(b, y) {
      KeptSame(y, y);
      var r :| |b.log| <= r < |y.log|
               && (y.log[r].kind == Replacement || y.log[r].kind == Step || y.log[r].kind == TakeBack);
      assert x.log[r] == y.log[r];
    } else if Resolved(y, x) {
      var r :| |y.log| <= r < |x.log|
               && (x.log[r].kind == Replacement || x.log[r].kind == Step || x.log[r].kind == TakeBack);
      assert |b.log| <= r;
    }
  }

  lemma ActedAdvances(a: Acoustics, p: Params, l: Local, r: Reading)
    requires Sane(l) && Acts(a, p, l.ev, r) && l.book.core.alt.Some? && MatchesStep(a, r, l.book.core.alt.value)
    ensures var x := Acted(a, p, l, r); Advances(l.book, l.ev.back, x.book, x.ev.back)
  {
    hide Weighed, Judged, Advances, KeptOrResolved, MatchesStep, Summed, NewStretch;
    var c := l.book.core;
    var louder := Judging(c) && a.louder(r.ref, c.ref.value, l.ev.part, 1.0);
    var noise := if Judging(c) then a.noiseStep(r.ref, c.ref.value, l.ev.part) else None;
    var w := Begun(a, p, l, r);
    if IsNew(a, p, l.ev, r) {
      JudgedKeeps(a, p, l.book, l.ev.stretch, noise, r);
    } else {
      ModeKeeps(l.book);
    }
    if w.book.core.alt == l.book.core.alt {
      WeighedAdvances(a, p, w, louder, l.ev.gate, r);
    }
    var x := Acted(a, p, l, r);
    AdvancesAfter(l.book, l.ev.back, w.book, x.book, x.ev.back);
  }

  /** The learner as a run finds it once the counts for no band and for a new level are taken. */
  function Ready(a: Acoustics, p: Params, l: Local, r: Reading): Local
    requires Sane(l)
  {
    var y := Widened(a, p, Narrowed(a, p, Doubted(a, l, r), r), r);
    y.(ev := Confirmed(a, p, y.ev, r))
  }

  lemma ReadyKeeps(a: Acoustics, p: Params, l: Local, r: Reading)
    requires Sane(l) && l.book.core.alt.Some? && MatchesStep(a, r, l.book.core.alt.value)
    ensures var z := Ready(a, p, l, r);
            Sane(z) && KeptOrResolved(l.book, z.book) && (z.book.core.alt == l.book.core.alt ==> z.ev.back == l.ev.back)
  {
    hide Grows, Thin, IsNew, KeptOrResolved;
    var y := Narrowed(a, p, Doubted(a, l, r), r);
    ModeKeeps(l.book);
    ReplacedResolves(y.book);
    ModeKeeps(y.book);
    KeptOn(l.book, y.book, Widened(a, p, y, r).book);
  }

  lemma MeasuredAdvances(a: Acoustics, p: Params, l: Local, r: Reading)
    requires Sane(l) && l.book.core.alt.Some? && MatchesStep(a, r, l.book.core.alt.value)
    requires Acts(a, p, Ready(a, p, l, r).ev, r)
    ensures var x := Measured(a, p, l, r); Advances(l.book, l.ev.back, x.book, x.ev.back)
  {
    hide Acted, Grows, Thin, IsNew, Advances, KeptOrResolved, Doubted, Narrowed, Widened, Confirmed, Acts, MatchesStep;
    ReadyKeeps(a, p, l, r);
    var z := Ready(a, p, l, r);
    var x := Measured(a, p, l, r);
    assert x == Acted(a, p, z, r);
    GrowsLog(z.book, x.book);
    if z.book.core.alt == l.book.core.alt {
      ActedAdvances(a, p, z, r);
    }
    AdvancesAfter(l.book, l.ev.back, z.book, x.book, x.ev.back);
  }

  lemma GrowsLog(b: Book, x: Book)
    requires Grows(b, x)
    ensures b.log <= x.log
  {
  }

  /** A window whose run is measured, acts, and reads as noise at level x. */
  ghost predicate Supports(a: Acoustics, p: Params, s: State, w: Window, x: Ref)
    requires Sane(s.local)
  {
    && w.key == s.key && !w.restart && !w.silent && s.local.ev.run + 1 >= p.m && MatchesStep(a, w.run, x)
    && Acts(a, p, Ready(a, p, s.local.(ev := s.local.ev.(run := s.local.ev.run + 1)), w.run).ev, w.run)
  }

  lemma NextAdvances(a: Acoustics, p: Params, s: State, w: Window, x: Ref)
    requires Well(s) && s.local.book.core.alt == Some(x) && Supports(a, p, s, w, x)
    ensures var l := Next(a, p, s, w).0.local; Advances(s.local.book, s.local.ev.back, l.book, l.ev.back)
    ensures Next(a, p, s, w).0.key == s.key
  {
    hide Measured, Advances, Grows, MatchesStep, Acts, Ready;
    MeasuredAdvances(a, p, s.local.(ev := s.local.ev.(run := s.local.ev.run + 1)), w.run);
  }

  ghost predicate AllSupport(a: Acoustics, p: Params, s: State, ws: seq<Window>, x: Ref)
    requires Well(s)
  {
    forall k :: 0 <= k < |ws| ==> Supports(a, p, After(a, p, s, ws[..k]), ws[k], x)
  }

  lemma {:induction false} SupportGathers(a: Acoustics, p: Params, s: State, ws: seq<Window>, x: Ref)
    requires Well(s) && s.local.book.core.alt == Some(x) && AllSupport(a, p, s, ws, x)
    ensures var b, back := s.local.book, s.local.ev.back;
            var l := After(a, p, s, ws).local;
            || Resolved(b, l.book)
            || (b.log <= l.book.log && l.book.core.alt == Some(x) && l.ev.back.n == back.n + |ws|
                && l.ev.back.held == back.held + |ws| && (ws != [] ==> TooEarly(l.ev.back)))
    decreases |ws|
  {
    hide Next, Supports, Resolved;
    if ws != [] {
      var n := |ws| - 1;
      assert forall k :: 0 <= k < n ==> ws[..k] == ws[..n][..k] && ws[k] == ws[..n][k];
      SupportGathers(a, p, s, ws[..n], x);
      var u := After(a, p, s, ws[..n]);
      SupportsOnce(a, p, s, ws, x);
      SupportsGrow(a, p, u, ws[n], x);
      if Resolved(s.local.book, u.local.book) {
        ResolvedStays(s.local.book, u.local.book, Next(a, p, u, ws[n]).0.local.book);
      } else {
        NextAdvances(a, p, u, ws[n], x);
        ResolvedEarlier(s.local.book, u.local.book, Next(a, p, u, ws[n]).0.local.book);
      }
    }
  }

  lemma SupportsOnce(a: Acoustics, p: Params, s: State, ws: seq<Window>, x: Ref)
    requires Well(s) && AllSupport(a, p, s, ws, x) && ws != []
    ensures var n := |ws| - 1; Supports(a, p, After(a, p, s, ws[..n]), ws[n], x)
  {
    hide Supports, After;
  }

  lemma SupportsGrow(a: Acoustics, p: Params, s: State, w: Window, x: Ref)
    requires Well(s) && Supports(a, p, s, w, x)
    ensures s.local.book.log <= Next(a, p, s, w).0.local.book.log
  {
    hide Measured;
  }

  lemma ResolvedStays(b: Book, c: Book, d: Book)
    requires Resolved(b, c) && c.log <= d.log
    ensures Resolved(b, d)
  {
    var r :| |b.log| <= r < |c.log|
             && (c.log[r].kind == Replacement || c.log[r].kind == Step || c.log[r].kind == TakeBack);
    assert d.log[r] == c.log[r];
  }

  lemma ResolvedEarlier(b: Book, c: Book, d: Book)
    requires b.log <= c.log
    ensures Resolved(c, d) ==> Resolved(b, d)
  {
    if Resolved(c, d) {
      var r :| |c.log| <= r < |d.log|
               && (d.log[r].kind == Replacement || d.log[r].kind == Step || d.log[r].kind == TakeBack);
      assert |b.log| <= r;
    }
  }

  /** A refuted step whose evidence keeps matching is taken back within forty runs, unless the reference was replaced or
      stepped down before: whatever evidence there was to begin with, so long as enough of it matched. */
  lemma TakenBackByForty(a: Acoustics, p: Params, s: State, ws: seq<Window>, x: Ref)
    requires Well(s) && s.local.book.core.alt == Some(x) && AllSupport(a, p, s, ws, x) && |ws| >= BACK_HOLD
    requires 3 * s.local.ev.back.n <= 4 * s.local.ev.back.held + BACK_HOLD
    ensures Resolved(s.local.book, After(a, p, s, ws).local.book)
  {
    hide After, Resolved;
    SupportGathers(a, p, s, ws, x);
  }
}
