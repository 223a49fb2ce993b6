/** What a refutation brings back: over every run, and through every change of context, the reference that was in force
    before the first of the steps it undoes. */
module SquelchLearnerHistory {
  import opened Wrappers
  import opened SquelchLearner

  // ---- Histories

  predicate Lowers(e: Entry) {
    e.kind == Step || e.kind == TakeBack
  }

  /** A step stands: one was taken, or taken back, and since then the reference only drifted. */
  ghost predicate Standing(log: seq<Entry>) {
    exists i :: 0 <= i < |log| && Lowers(log[i]) && OnlySteps(log, i)
  }

  /** Nothing since i but steps and drift: no replacement, no refutation and no step taken back. */
  ghost predicate OnlySteps(log: seq<Entry>, i: int) {
    forall j :: 0 <= i < j < |log| ==> log[j].kind == Step || log[j].kind == Drift
  }

  /** Entry i is the first of the steps now held: a step taken back, or a step taken while none stood. */
  ghost predicate HeldSince(log: seq<Entry>, i: int) {
    && 0 <= i < |log|
    && (log[i].kind == TakeBack || (log[i].kind == Step && !Standing(log[..i])))
    && OnlySteps(log, i)
  }

  /** The same as a fold. */
  function Opening(log: seq<Entry>): (r: Option<nat>)
    ensures r.Some? ==> r.value < |log|
  {
    if log == [] then None
    else
      var n := |log| - 1;
      match log[n].kind
      case Replacement => None
      case Refutation => None
      case TakeBack => Some(n)
      case Step => if Opening(log[..n]).Some? then Opening(log[..n]) else Some(n)
      case Drift => Opening(log[..n])
  }

  lemma {:induction false} StandingIsOpening(log: seq<Entry>)
    ensures Standing(log) <==> Opening(log).Some?
    decreases |log|
  {
    if log != [] {
      var n := |log| - 1;
      StandingIsOpening(log[..n]);
      StandingGrows(log);
    }
  }

  lemma StandingGrows(log: seq<Entry>)
    requires log != []
    ensures var n := |log| - 1;
            Standing(log) <==> Lowers(log[n]) || (log[n].kind == Drift && Standing(log[..n]))
  {
    var n := |log| - 1;
    if Lowers(log[n]) {
      assert OnlySteps(log, n);
    }
    if Standing(log) && !Lowers(log[n]) {
      var i :| 0 <= i < |log| && Lowers(log[i]) && OnlySteps(log, i);
      assert log[..n][i] == log[i] && OnlySteps(log[..n], i);
    }
    if Standing(log[..n]) && log[n].kind == Drift {
      var i :| 0 <= i < |log[..n]| && Lowers(log[..n][i]) && OnlySteps(log[..n], i);
      forall j | i < j < |log| ensures log[j].kind == Step || log[j].kind == Drift {
        assert j < n ==> log[..n][j] == log[j];
      }
      assert log[i] == log[..n][i] && OnlySteps(log, i);
    }
  }

  lemma {:induction false} OpeningIsFirst(log: seq<Entry>, i: nat)
    ensures Opening(log) == Some(i) <==> HeldSince(log, i)
    decreases |log|
  {
    if log != [] {
      var n := |log| - 1;
      StandingIsOpening(log[..n]);
      if i < n {
        OpeningIsFirst(log[..n], i);
        assert log[..n][..i] == log[..i] && log[..n][i] == log[i];
        assert OnlySteps(log, i) <==> OnlySteps(log[..n], i) && (log[n].kind == Step || log[n].kind == Drift) by {
          assert forall j :: 0 <= j < n ==> log[..n][j] == log[j];
          if OnlySteps(log, i) {
            assert OnlySteps(log[..n], i);
          }
        }
        if Opening(log[..n]).Some? && Opening(log[..n]).value != i {
          OpeningIsFirst(log[..n], Opening(log[..n]).value);
        }
      }
    }
  }

  // ---- What every change keeps

  /** Each change starts from the reference the last one left. */
  ghost predicate Chained(log: seq<Entry>) {
    forall i :: 0 < i < |log| ==> log[i].before == log[i - 1].after
  }

  /** Each refutation brings back the reference from before the first step it undoes. */
  ghost predicate Restores(log: seq<Entry>) {
    forall r :: 0 <= r < |log| && log[r].kind == Refutation ==> Restored(log, r)
  }

  ghost predicate Restored(log: seq<Entry>, r: nat)
    requires r < |log|
  {
    Opening(log[..r]).Some? && log[r].after == log[Opening(log[..r]).value].before
  }

  /** The step now kept for taking back is the reference the last change but for drift, a refutation, undid. */
  ghost predicate UndoneBy(log: seq<Entry>, alt: Option<Ref>) {
    exists r :: 0 <= r < |log| && log[r].kind == Refutation && log[r].before == alt && OnlyDrift(log, r)
  }

  ghost predicate OnlyDrift(log: seq<Entry>, r: int) {
    forall j :: 0 <= r < j < |log| ==> log[j].kind == Drift
  }

  ghost predicate Sound(b: Book) {
    && Chained(b.log) && Restores(b.log)
    && (b.log != [] ==> b.log[|b.log| - 1].after == b.core.ref)
    && (b.core.prior.Some? <==> Opening(b.log).Some?)
    && (b.core.prior.Some? ==> b.log[Opening(b.log).value].before == Some(b.core.prior.value.ref))
    && (b.core.alt.Some? ==> UndoneBy(b.log, b.core.alt))
  }

  /** A history one change longer. */
  lemma Extends(b: Book, e: Entry)
    requires Sound(b) && e.before == b.core.ref
    requires e.kind == Refutation ==> b.core.prior.Some? && e.after == Some(b.core.prior.value.ref)
    ensures var log := b.log + [e];
            && Chained(log) && Restores(log) && log[..|b.log|] == b.log
            && (e.kind == Drift && b.core.alt.Some? ==> UndoneBy(log, b.core.alt))
  {
    hide Opening, Standing;
    var log, n := b.log + [e], |b.log|;
    assert log[..n] == b.log;
    forall r | 0 <= r < |log| && log[r].kind == Refutation ensures Restored(log, r) {
      if r < n {
        assert log[..r] == b.log[..r] && log[r] == b.log[r];
        assert Restored(b.log, r);
      }
    }
    if e.kind == Drift && b.core.alt.Some? {
      var r :| 0 <= r < n && b.log[r].kind == Refutation && b.log[r].before == b.core.alt && OnlyDrift(b.log, r);
      assert log[r] == b.log[r] && OnlyDrift(log, r);
    }
  }

  lemma ReplacedSound(b: Book)
    requires Sound(b)
    ensures forall ref {:trigger Replaced(b, ref)} :: Sound(Replaced(b, ref))
  {
    hide Restores, Chained, UndoneBy;
    forall ref ensures Sound(Replaced(b, ref)) {
      Extends(b, Entry(Replacement, b.core.ref, Some(ref)));
    }
  }

  lemma SteppedSound(b: Book)
    requires Sound(b) && b.core.ref.Some?
    ensures forall ref {:trigger Stepped(b, ref)} :: Sound(Stepped(b, ref))
  {
    hide Restores, Chained, UndoneBy;
    forall ref ensures Sound(Stepped(b, ref)) {
      Extends(b, Entry(Step, b.core.ref, Some(ref)));
    }
  }

  lemma TakenBackSound(b: Book)
    requires Sound(b) && b.core.ref.Some?
    ensures forall ref {:trigger TakenBack(b, ref)} :: Sound(TakenBack(b, ref))
  {
    hide Restores, Chained, UndoneBy;
    forall ref ensures Sound(TakenBack(b, ref)) {
      Extends(b, Entry(TakeBack, b.core.ref, Some(ref)));
    }
  }

  lemma DriftedSound(b: Book)
    requires Sound(b) && Coherent(b.core) && b.core.ref.Some?
    ensures forall ref {:trigger Drifted(b, ref)} :: Sound(Drifted(b, ref))
  {
    hide Restores, Chained, UndoneBy;
    forall ref ensures Sound(Drifted(b, ref)) {
      Extends(b, Entry(Drift, b.core.ref, Some(ref)));
    }
  }

  lemma RefutedSound(b: Book)
    requires Sound(b) && b.core.prior.Some? && b.core.ref.Some?
    ensures Sound(Refuted(b))
  {
    hide Restores, Chained;
    var e := Entry(Refutation, b.core.ref, Some(b.core.prior.value.ref));
    Extends(b, e);
    assert OnlyDrift(b.log + [e], |b.log|);
  }

  lemma InModeSound(b: Book, mode: Mode)
    ensures Sound(b) ==> Sound(InMode(b, mode))
  {
  }

  // ---- What every run of windows keeps

  lemma JudgedSound(a: Acoustics, p: Params, b: Book, stretch: Option<Stretch>, noise: Option<real>, r: Reading)
    requires Sound(b) && Coherent(b.core) && (stretch.Some? ==> stretch.value.voice.n > 0)
    ensures Sound(Judged(a, p, b, stretch, noise, r).0)
  {
    hide Sound;
    ReplacedSound(b);
    InModeSound(b, Known);
    InModeSound(Replaced(b, r.ref), Known);
    InModeSound(Replaced(b, r.ref), Provisional);
  }

  lemma RefuteSound(a: Acoustics, p: Params, w: Work, louder: bool, r: Reading)
    requires Fit(w) && Sound(w.book)
    ensures Sound(Refute(a, p, w, louder, r).book)
  {
    hide Sound, Against, Last, Marks;
    if w.book.core.prior.Some? {
      RefutedSound(w.book);
    }
  }

  lemma TakeStepBackSound(a: Acoustics, w: Work, r: Reading)
    requires Fit(w) && Sound(w.book)
    ensures Sound(TakeStepBack(a, w, r).book)
  {
    hide Sound, Gathered;
    if w.book.core.alt.Some? {
      TakenBackSound(w.book);
    }
  }

  lemma StepTakenSound(a: Acoustics, w: Work, ref: Ref)
    requires Fit(w) && Sound(w.book) && w.book.core.ref.Some?
    ensures Sound(StepTaken(a, w, ref).book) && Sound(InMode(StepTaken(a, w, ref).book, Known))
  {
    hide Sound;
    SteppedSound(w.book);
    InModeSound(Stepped(w.book, ref), Known);
  }

  lemma LoweredSound(a: Acoustics, w: Work, r: Reading)
    requires Fit(w) && Sound(w.book)
    ensures Sound(Lowered(a, w, r).book)
  {
    hide Sound, Counted, MovedDown, Mean, Hold, StepTaken;
    if w.book.core.ref.Some? {
      forall s, ref ensures Sound(StepTaken(a, w.(stretch := s), ref).book)
                            && Sound(InMode(StepTaken(a, w.(stretch := s), ref).book, Known)) {
        StepTakenSound(a, w.(stretch := s), ref);
      }
    }
  }

  lemma GainedSound(a: Acoustics, w: Work, r: Reading)
    requires Fit(w) && Sound(w.book)
    ensures Sound(Gained(a, w, r).book)
  {
    hide Sound, Counted, MovedDown, Mean, StepTaken;
    InModeSound(w.book, Known);
    if w.book.core.ref.Some? {
      var s := w.stretch.(pend := None, lower := None);
      forall ref ensures Sound(StepTaken(a, w.(stretch := s), ref).book) {
        StepTakenSound(a, w.(stretch := s), ref);
      }
    }
  }

  lemma StaledSound(a: Acoustics, w: Work, gate: bool, r: Reading)
    requires Fit(w) && Sound(w.book)
    ensures Sound(Staled(a, w, gate, r).book)
  {
    hide Sound, StepTaken;
    if w.book.core.ref.Some? {
      StepTakenSound(a, w.(stretch := w.stretch.(open := Open(0, 0))), r.ref);
    }
  }

  lemma TrailedSound(a: Acoustics, w: Work, r: Reading)
    requires Fit(w) && Sound(w.book)
    ensures Sound(Trailed(a, w, r).book)
  {
    hide Sound;
    if w.book.core.ref.Some? {
      DriftedSound(w.book);
    }
  }

  lemma WeighedSound(a: Acoustics, p: Params, w: Work, louder: bool, gate: bool, r: Reading)
    requires Fit(w) && Sound(w.book)
    ensures Sound(Weighed(a, p, w, louder, gate, r).book)
  {
    hide Sound, Fit, Refute, TakeStepBack, Lowered, Gained, Staled, Trailed;
    RefuteSound(a, p, w, louder, r);
    var x1 := Refute(a, p, w, louder, r);
    TakeStepBackSound(a, x1, r);
    var x2 := TakeStepBack(a, x1, r);
    LoweredSound(a, x2, r);
    var x3 := Lowered(a, x2, r);
    GainedSound(a, x3, r);
    var x4 := Gained(a, x3, r);
    StaledSound(a, x4, gate, r);
    TrailedSound(a, Staled(a, x4, gate, r), r);
  }

  lemma MeasuredSound(a: Acoustics, p: Params, l: Local, r: Reading)
    requires Sane(l) && Sound(l.book)
    ensures Sound(Measured(a, p, l, r).book)
  {
    hide Sound, Weighed, Judged, Thin, IsNew;
    InModeSound(l.book, NoBand);
    var y := Narrowed(a, p, Doubted(a, l, r), r);
    assert Sound(y.book);
    ReplacedSound(y.book);
    InModeSound(Replaced(y.book, r.ref), Provisional);
    var u := Widened(a, p, y, r);
    assert Sound(u.book);
    var z := u.(ev := Confirmed(a, p, u.ev, r));
    if Acts(a, p, z.ev, r) {
      ActedSound(a, p, z, r);
    }
  }

  lemma ActedSound(a: Acoustics, p: Params, l: Local, r: Reading)
    requires Sane(l) && Acts(a, p, l.ev, r) && Sound(l.book)
    ensures Sound(Acted(a, p, l, r).book)
  {
    hide Sound, Weighed, Judged, Summed, NewStretch;
    var c := l.book.core;
    var noise := if Judging(c) then a.noiseStep(r.ref, c.ref.value, l.ev.part) else None;
    JudgedSound(a, p, l.book, l.ev.stretch, noise, r);
    var louder := Judging(c) && a.louder(r.ref, c.ref.value, l.ev.part, 1.0);
    WeighedSound(a, p, Begun(a, p, l, r), louder, l.ev.gate, r);
  }
}
