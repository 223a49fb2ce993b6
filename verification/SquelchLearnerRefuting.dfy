/** When a held step is refuted, told from the runs: over every run of windows a refutation is added at exactly the run
    that makes eight of the last ten weighed on the stretch speak against the step, two of them moving. */
module SquelchLearnerRefuting {
  import opened Wrappers
  import opened SquelchLearner
  import opened SquelchLearnerTiming

  // ---- What a window's run meets

  /** The learner as a window's run finds it, None when the window measures no run. */
  function Found(a: Acoustics, p: Params, s: State, w: Window): (z: Option<Local>)
    requires Well(s)
    ensures z.Some? ==> Sane(z.value)
  {
    hide Ready, Arrived, Grows;
    ArrivedWell(a, s, w);
    var l := Arrived(a, s, w).local.(ev := Arrived(a, s, w).local.ev.(run := Arrived(a, s, w).local.ev.run + 1));
    if w.silent || l.ev.run < p.m then None
    else
      ReadySane(a, p, l, w.run);
      Some(Ready(a, p, l, w.run))
  }

  lemma ReadySane(a: Acoustics, p: Params, l: Local, r: Reading)
    requires Sane(l)
    ensures Sane(Ready(a, p, l, r))
  {
    hide Narrowed, Widened, Doubted, IsNew, Grows;
  }

  /** Evidence but for the gate. */
  function Ungated(l: Local): Local {
    l.(ev := l.ev.(gate := false))
  }

  lemma NextFrom(a: Acoustics, p: Params, s: State, w: Window)
    requires Well(s)
    ensures var l, x := Arrived(a, s, w).local, Next(a, p, s, w).0.local;
            match Found(a, p, s, w)
            case None => x.book == l.book && (x.ev.stretch == l.ev.stretch || x.ev.stretch == None)
            case Some(z) =>
              Ungated(x) == Ungated(if Acts(a, p, z.ev, w.run) then Acted(a, p, z, w.run) else z)
  {
    hide Doubted, Narrowed, Widened, Confirmed, Acted, Acts, Gated, Arrived, Grows;
    ArrivedWell(a, s, w);
  }

  // ---- Marks

  /** A run weighed against a held step: whether it speaks against it, and whether it moves. */
  datatype Mark = Mark(against: bool, moving: bool)

  /** The run shows a carrier at the held step's reference, measured against the reference the learner holds: speech
      clearly louder than noise, speech over a contested step at half that, or a level above the reference without
      noise's spectrum. */
  predicate SpeaksAgainst(a: Acoustics, z: Local, r: Reading)
    requires Coherent(z.book.core) && z.book.core.prior.Some?
  {
    var ref := z.book.core.ref.value;
    var judged := Judging(z.book.core);
    || (judged && a.louder(r.ref, ref, z.ev.part, 2.0))
    || (judged && a.louder(r.ref, ref, z.ev.part, 1.0) && z.book.core.prior.value.proven && !r.rSteady)
    || (!(judged && a.noiseStep(r.ref, ref, z.ev.part).Some?) && a.total(r.ref) > a.total(ref) + 1.5)
  }

  ghost predicate Replaces(b: Book, x: Book) {
    exists k :: |b.log| <= k < |x.log| && x.log[k].kind == Replacement
  }

  /** The run is weighed against a held step: one acts, the step is not replaced by it, and its level is less than the
      gate's threshold under the reference. */
  ghost predicate Weighs(a: Acoustics, p: Params, z: Local, r: Reading, x: Book)
    requires Coherent(z.book.core)
  {
    && Acts(a, p, z.ev, r) && z.book.core.prior.Some? && !Replaces(z.book, x)
    && a.total(r.ref) > a.total(z.book.core.ref.value) - p.n
  }

  /** The marks of one window more: a new stretch, a step, a step taken back and a refutation start them over. */
  ghost function Noted(a: Acoustics, p: Params, s: State, w: Window, tape: seq<Mark>): seq<Mark>
    requires Well(s)
  {
    var x := Next(a, p, s, w).0.local;
    match Found(a, p, s, w)
    case None => if x.ev.stretch.None? then [] else tape
    case Some(z) =>
      var kept := if z.ev.stretch.None? || (Acts(a, p, z.ev, w.run) && IsNew(a, p, z.ev, w.run)) then [] else tape;
      if Marked(z.book, x.book) then []
      else if Weighs(a, p, z, w.run, x.book) then kept + [Mark(SpeaksAgainst(a, z, w.run), !w.run.rSteady)]
      else kept
  }

  ghost function Tape(a: Acoustics, p: Params, s: State, ws: seq<Window>): seq<Mark>
    requires Well(s)
    decreases |ws|
  {
    if ws == [] then []
    else
      var n := |ws| - 1;
      Noted(a, p, After(a, p, s, ws[..n]), ws[n], Tape(a, p, s, ws[..n]))
  }

  /** Of the last ten marks, at least eight are against the step and at least two moving. */
  ghost predicate Convicts(tape: seq<Mark>) {
    var n := |tape|;
    && n >= 10
    && |set i | n - 10 <= i < n && tape[i].against| >= 8
    && |set i | n - 10 <= i < n && tape[i].moving| >= 2
  }

  // ---- The rings hold the last ten marks

  function AgainstOf(tape: seq<Mark>): (s: seq<bool>)
    ensures |s| == |tape|
  {
    seq(|tape|, i requires 0 <= i < |tape| => tape[i].against)
  }

  function MovingOf(tape: seq<Mark>): (s: seq<bool>)
    ensures |s| == |tape|
  {
    seq(|tape|, i requires 0 <= i < |tape| => tape[i].moving)
  }

  function LastTen(marks: seq<bool>): (s: seq<bool>)
    ensures |s| <= 10
  {
    if |marks| > 10 then marks[|marks| - 10..] else marks
  }

  ghost predicate Holds(stretch: Option<Stretch>, tape: seq<Mark>) {
    match stretch
    case None => tape == []
    case Some(s) => s.ring == LastTen(AgainstOf(tape)) && s.moving == LastTen(MovingOf(tape))
  }

  lemma LastOfTen(marks: seq<bool>, mark: bool)
    ensures Last(LastTen(marks), mark) == LastTen(marks + [mark])
  {
  }

  /** Where the marks from n on are set. */
  ghost function SetFrom(marks: seq<bool>, n: nat): set<int> {
    set i | n <= i < |marks| && marks[i]
  }

  lemma {:induction false} MarksCount(marks: seq<bool>, n: nat)
    requires n <= |marks|
    ensures Marks(marks[n..]) == |SetFrom(marks, n)|
    decreases |marks|
  {
    if |marks| == n {
      assert SetFrom(marks, n) == {};
    } else {
      var m := |marks| - 1;
      MarksCount(marks[..m], n);
      assert marks[n..][..m - n] == marks[..m][n..];
      assert SetFrom(marks, n) == SetFrom(marks[..m], n) + if marks[m] then {m} else {};
    }
  }

  lemma ConvictsByRings(tape: seq<Mark>)
    ensures var ring, moving := LastTen(AgainstOf(tape)), LastTen(MovingOf(tape));
            Convicts(tape) <==> |ring| == REFUTE_RUNS && Marks(ring) >= REFUTE_MIN && Marks(moving) >= REFUTE_MOVING
  {
    hide Marks;
    var n := |tape|;
    if n >= 10 {
      MarksCount(AgainstOf(tape), n - 10);
      MarksCount(MovingOf(tape), n - 10);
      assert (set i | n - 10 <= i < n && tape[i].against) == SetFrom(AgainstOf(tape), n - 10);
      assert (set i | n - 10 <= i < n && tape[i].moving) == SetFrom(MovingOf(tape), n - 10);
      assert LastTen(AgainstOf(tape)) == AgainstOf(tape)[n - 10..];
      assert LastTen(MovingOf(tape)) == MovingOf(tape)[n - 10..];
    }
  }

  // ---- One run

  /** What the run leaves of the marks, and whether they refute the step. */
  function RingAfter(a: Acoustics, p: Params, w: Work, louder: bool, r: Reading): (seq<bool>, seq<bool>)
    requires Fit(w)
  {
    var c := w.book.core;
    if c.prior.Some? && a.total(r.ref) > a.total(c.ref.value) - p.n
    then (Last(w.stretch.ring, Against(a, w, louder, r)), Last(w.stretch.moving, !r.rSteady))
    else (w.stretch.ring, w.stretch.moving)
  }

  predicate Fires(a: Acoustics, p: Params, w: Work, louder: bool, r: Reading)
    requires Fit(w)
  {
    var c := w.book.core;
    var (ring, moving) := RingAfter(a, p, w, louder, r);
    && c.prior.Some? && a.total(r.ref) > a.total(c.ref.value) - p.n
    && |ring| == REFUTE_RUNS && Marks(ring) >= REFUTE_MIN && Marks(moving) >= REFUTE_MOVING
  }

  lemma RefuteFires(a: Acoustics, p: Params, w: Work, louder: bool, r: Reading)
    requires Fit(w)
    ensures var x, (ring, moving) := Refute(a, p, w, louder, r), RingAfter(a, p, w, louder, r);
            if Fires(a, p, w, louder, r)
            then x.book == Refuted(w.book) && x.stretch.ring == [] && x.stretch.moving == []
            else x.book == w.book && x.stretch.ring == ring && x.stretch.moving == moving
  {
    hide Against, Marks, Last;
  }

  /** What follows in the run adds no refutation and no replacement, and leaves the marks but for a step. */
  ghost predicate LeavesRings(w: Work, x: Work) {
    && w.book.log <= x.book.log && !Undone(w.book, x.book) && !Replaces(w.book, x.book)
    && if Marked(w.book, x.book) then x.stretch.ring == [] && x.stretch.moving == []
       else x.stretch.ring == w.stretch.ring && x.stretch.moving == w.stretch.moving
  }

  lemma EntriesSplit(b: Book, x: Book, y: Book)
    requires b.log <= x.log <= y.log
    ensures Marked(b, y) <==> Marked(b, x) || Marked(x, y)
    ensures Undone(b, y) <==> Undone(b, x) || Undone(x, y)
    ensures Replaces(b, y) <==> Replaces(b, x) || Replaces(x, y)
  {
    assert forall k :: |b.log| <= k < |x.log| ==> x.log[k] == y.log[k];
    if Marked(b, x) {
      var k :| |b.log| <= k < |x.log|
               && (x.log[k].kind == Step || x.log[k].kind == TakeBack || x.log[k].kind == Refutation);
      assert y.log[k] == x.log[k];
    }
    if Undone(b, x) {
      var k :| |b.log| <= k < |x.log| && x.log[k].kind == Refutation;
      assert y.log[k] == x.log[k];
    }
    if Replaces(b, x) {
      var k :| |b.log| <= k < |x.log| && x.log[k].kind == Replacement;
      assert y.log[k] == x.log[k];
    }
  }

  lemma LeavesOn(w: Work, x: Work, y: Work)
    requires LeavesRings(w, x) && LeavesRings(x, y)
    ensures LeavesRings(w, y)
  {
    hide Marked, Undone, Replaces;
    EntriesSplit(w.book, x.book, y.book);
  }

  /** One entry more. */
  lemma OneEntry(b: Book, x: Book, e: Entry)
    requires x.log == b.log + [e]
    ensures Marked(b, x) <==> e.kind == Step || e.kind == TakeBack || e.kind == Refutation
    ensures Undone(b, x) <==> e.kind == Refutation
    ensures Replaces(b, x) <==> e.kind == Replacement
  {
    assert x.log[|b.log|] == e;
  }

  lemma NoEntry(b: Book, x: Book)
    requires x.log == b.log
    ensures !Marked(b, x) && !Undone(b, x) && !Replaces(b, x)
  {
  }

  /** A phase adds a step, or one taken back, and starts the marks over, or adds at most a drift and leaves them. */
  lemma PhaseLeaves(w: Work, x: Work)
    requires || (x.book.log == w.book.log && x.stretch.ring == w.stretch.ring && x.stretch.moving == w.stretch.moving)
             || (|x.book.log| == |w.book.log| + 1 && w.book.log <= x.book.log
                 && (x.book.log[|w.book.log|].kind == Step || x.book.log[|w.book.log|].kind == TakeBack)
                 && x.stretch.ring == [] && x.stretch.moving == [])
             || (|x.book.log| == |w.book.log| + 1 && w.book.log <= x.book.log
                 && x.book.log[|w.book.log|].kind == Drift
                 && x.stretch.ring == w.stretch.ring && x.stretch.moving == w.stretch.moving)
    ensures LeavesRings(w, x)
  {
    if x.book.log == w.book.log {
      NoEntry(w.book, x.book);
    } else {
      assert x.book.log == w.book.log + [x.book.log[|w.book.log|]];
      OneEntry(w.book, x.book, x.book.log[|w.book.log|]);
    }
  }

  lemma TakeStepBackLeaves(a: Acoustics, w: Work, r: Reading)
    requires Fit(w)
    ensures LeavesRings(w, TakeStepBack(a, w, r))
  {
    hide LeavesRings, Gathered, Grows;
    PhaseLeaves(w, TakeStepBack(a, w, r));
  }

  lemma LoweredLeaves(a: Acoustics, w: Work, r: Reading)
    requires Fit(w)
    ensures LeavesRings(w, Lowered(a, w, r))
  {
    hide LeavesRings, MovedDown, Mean, Counted, Hold, Grows;
    PhaseLeaves(w, Lowered(a, w, r));
  }

  lemma GainedLeaves(a: Acoustics, w: Work, r: Reading)
    requires Fit(w)
    ensures LeavesRings(w, Gained(a, w, r))
  {
    hide LeavesRings, MovedDown, Mean, Counted, Grows;
    PhaseLeaves(w, Gained(a, w, r));
  }

  lemma StaledLeaves(a: Acoustics, w: Work, gate: bool, r: Reading)
    requires Fit(w)
    ensures LeavesRings(w, Staled(a, w, gate, r))
  {
    hide LeavesRings, Grows;
    PhaseLeaves(w, Staled(a, w, gate, r));
  }

  lemma TrailedLeaves(a: Acoustics, w: Work, r: Reading)
    requires Fit(w)
    ensures LeavesRings(w, Trailed(a, w, r))
  {
    hide LeavesRings, Grows;
    PhaseLeaves(w, Trailed(a, w, r));
  }

  lemma WeighedFires(a: Acoustics, p: Params, w: Work, louder: bool, gate: bool, r: Reading)
    requires Fit(w)
    ensures var x, (ring, moving) := Weighed(a, p, w, louder, gate, r), RingAfter(a, p, w, louder, r);
            && w.book.log <= x.book.log && !Replaces(w.book, x.book)
            && (Undone(w.book, x.book) <==> Fires(a, p, w, louder, r))
            && if Marked(w.book, x.book) then x.stretch.ring == [] && x.stretch.moving == []
               else x.stretch.ring == ring && x.stretch.moving == moving
  {
    hide TakeStepBack, Lowered, Gained, Staled, Trailed, Refute, RingAfter, Fires, LeavesRings, Grows;
    RefuteFires(a, p, w, louder, r);
    var x1 := Refute(a, p, w, louder, r);
    TakeStepBackLeaves(a, x1, r);
    var x2 := TakeStepBack(a, x1, r);
    LoweredLeaves(a, x2, r);
    var x3 := Lowered(a, x2, r);
    LeavesOn(x1, x2, x3);
    GainedLeaves(a, x3, r);
    var x4 := Gained(a, x3, r);
    LeavesOn(x1, x3, x4);
    StaledLeaves(a, x4, gate, r);
    var x5 := Staled(a, x4, gate, r);
    LeavesOn(x1, x4, x5);
    TrailedLeaves(a, x5, r);
    var x := Trailed(a, x5, r);
    LeavesOn(x1, x5, x);
    RefutedThenLeft(a, p, w, louder, r, x);
  }

  lemma RefutedThenLeft(a: Acoustics, p: Params, w: Work, louder: bool, r: Reading, x: Work)
    requires Fit(w) && LeavesRings(Refute(a, p, w, louder, r), x)
    ensures var (ring, moving) := RingAfter(a, p, w, louder, r);
            && w.book.log <= x.book.log && !Replaces(w.book, x.book)
            && (Undone(w.book, x.book) <==> Fires(a, p, w, louder, r))
            && if Marked(w.book, x.book) then x.stretch.ring == [] && x.stretch.moving == []
               else x.stretch.ring == ring && x.stretch.moving == moving
  {
    hide Refute, RingAfter, Fires, Marked, Undone, Replaces, Grows;
    RefuteFires(a, p, w, louder, r);
    var x1 := Refute(a, p, w, louder, r);
    if Fires(a, p, w, louder, r) {
      FiresHeld(a, p, w, louder, r);
      OneEntry(w.book, x1.book, x1.book.log[|w.book.log|]);
    } else {
      NoEntry(w.book, x1.book);
    }
    EntriesSplit(w.book, x1.book, x.book);
  }

  lemma FiresHeld(a: Acoustics, p: Params, w: Work, louder: bool, r: Reading)
    requires Fit(w) && Fires(a, p, w, louder, r)
    ensures w.book.core.prior.Some? && w.book.core.ref.Some?
  {
  }

  // ---- One window

  /** The run's own comparison is the one the learner made before it judged the level. */
  lemma JudgedKeepsStep(a: Acoustics, p: Params, b: Book, stretch: Option<Stretch>, noise: Option<real>, r: Reading)
    requires Coherent(b.core) && (stretch.Some? ==> stretch.value.voice.n > 0)
    ensures var x := Judged(a, p, b, stretch, noise, r).0;
            && b.log <= x.log && !Marked(b, x)
            && (Replaces(b, x) ==> x.core.prior.None?)
            && (!Replaces(b, x) ==> x.log == b.log && x.core.(mode := b.core.mode) == b.core)
  {
    hide Marked, Replaces;
    var x := Judged(a, p, b, stretch, noise, r).0;
    if x.log == b.log {
      NoEntry(b, x);
    } else {
      OneEntry(b, x, Entry(Replacement, b.core.ref, Some(r.ref)));
    }
  }

  /** The marks after an acting run: its stretch's so far, and its own if it is weighed. */
  ghost function RunMarks(a: Acoustics, p: Params, z: Local, r: Reading, x: Book, tape: seq<Mark>): seq<Mark>
    requires Coherent(z.book.core)
  {
    var kept := if IsNew(a, p, z.ev, r) then [] else tape;
    if Weighs(a, p, z, r, x) then kept + [Mark(SpeaksAgainst(a, z, r), !r.rSteady)] else kept
  }

  /** Against the step is what the run says against the reference held before it. */
  lemma BegunSpeaks(a: Acoustics, p: Params, z: Local, r: Reading)
    requires Sane(z) && Acts(a, p, z.ev, r)
    ensures var c, w := z.book.core, Begun(a, p, z, r);
            var louder := Judging(c) && a.louder(r.ref, c.ref.value, z.ev.part, 1.0);
            && z.book.log <= w.book.log && !Marked(z.book, w.book)
            && w.stretch.ring == (if IsNew(a, p, z.ev, r) then [] else z.ev.stretch.value.ring)
            && w.stretch.moving == (if IsNew(a, p, z.ev, r) then [] else z.ev.stretch.value.moving)
            && (Replaces(z.book, w.book) ==> w.book.core.prior.None?)
            && (!Replaces(z.book, w.book) ==> w.book.core.(mode := c.mode) == c)
            && (!Replaces(z.book, w.book) && c.prior.Some? ==> (Against(a, w, louder, r) <==> SpeaksAgainst(a, z, r)))
  {
    hide Judged, Marked, Replaces, Grows, Summed;
    var c := z.book.core;
    if IsNew(a, p, z.ev, r) {
      var noise := if Judging(c) then a.noiseStep(r.ref, c.ref.value, z.ev.part) else None;
      JudgedKeepsStep(a, p, z.book, z.ev.stretch, noise, r);
      SummedRings(a, NewStretch(a, p, Begun(a, p, z, r).book.core.ref, a.total(r.ref),
                                Judged(a, p, z.book, z.ev.stretch, noise, r).1), r);
    } else {
      NoEntry(z.book, z.book);
      SummedRings(a, z.ev.stretch.value, r);
    }
  }

  lemma SummedRings(a: Acoustics, s: Stretch, r: Reading)
    ensures Summed(a, s, r).ring == s.ring && Summed(a, s, r).moving == s.moving
  {
  }

  lemma RingsAreMarks(a: Acoustics, p: Params, z: Local, r: Reading, tape: seq<Mark>, x: Book)
    requires Sane(z) && Acts(a, p, z.ev, r)
    requires z.ev.stretch.None? || IsNew(a, p, z.ev, r) || Holds(z.ev.stretch, tape)
    requires Replaces(z.book, x) <==> Replaces(z.book, Begun(a, p, z, r).book)
    ensures var c, w := z.book.core, Begun(a, p, z, r);
            var louder := Judging(c) && a.louder(r.ref, c.ref.value, z.ev.part, 1.0);
            var (ring, moving) := RingAfter(a, p, w, louder, r);
            var marks := RunMarks(a, p, z, r, x, tape);
            && ring == LastTen(AgainstOf(marks)) && moving == LastTen(MovingOf(marks))
            && (Fires(a, p, w, louder, r) <==> Weighs(a, p, z, r, x) && Convicts(marks))
  {
    hide Begun, Judged, Against, SpeaksAgainst, Acts, IsNew, Marked, Undone, Replaces, Convicts, Grows, Marks, Last,
         LastTen;
    var c, w := z.book.core, Begun(a, p, z, r);
    var louder := Judging(c) && a.louder(r.ref, c.ref.value, z.ev.part, 1.0);
    BegunSpeaks(a, p, z, r);
    NewIfNone(a, p, z.ev, r);
    NoMarks();
    var kept := if IsNew(a, p, z.ev, r) then [] else tape;
    assert w.stretch.ring == LastTen(AgainstOf(kept)) && w.stretch.moving == LastTen(MovingOf(kept));
    var marks := RunMarks(a, p, z, r, x, tape);
    if Weighs(a, p, z, r, x) {
      var mark := Mark(SpeaksAgainst(a, z, r), !r.rSteady);
      LastOfTen(AgainstOf(kept), mark.against);
      LastOfTen(MovingOf(kept), mark.moving);
      assert AgainstOf(marks) == AgainstOf(kept) + [mark.against];
      assert MovingOf(marks) == MovingOf(kept) + [mark.moving];
    }
    ConvictsByRings(marks);
  }

  lemma ActedFires(a: Acoustics, p: Params, z: Local, r: Reading, tape: seq<Mark>)
    requires Sane(z) && Acts(a, p, z.ev, r)
    requires z.ev.stretch.None? || IsNew(a, p, z.ev, r) || Holds(z.ev.stretch, tape)
    ensures var x := Acted(a, p, z, r);
            var marks := RunMarks(a, p, z, r, x.book, tape);
            && z.book.log <= x.book.log
            && (Undone(z.book, x.book) <==> Weighs(a, p, z, r, x.book) && Convicts(marks))
            && Holds(x.ev.stretch, if Marked(z.book, x.book) then [] else marks)
  {
    hide Weighed, Begun, Judged, Acts, IsNew, Marked, Undone, Replaces, Convicts, Grows, RingAfter, Fires, RunMarks,
         Weighs, LastTen;
    var c := z.book.core;
    var louder := Judging(c) && a.louder(r.ref, c.ref.value, z.ev.part, 1.0);
    var w, x := Begun(a, p, z, r), Acted(a, p, z, r);
    BegunSpeaks(a, p, z, r);
    WeighedFires(a, p, w, louder, z.ev.gate, r);
    EntriesSplit(z.book, w.book, x.book);
    MarkedIfUndone(z.book, w.book);
    RingsAreMarks(a, p, z, r, tape, x.book);
    NoMarks();
  }

  lemma MarkedIfUndone(b: Book, x: Book)
    ensures Undone(b, x) ==> Marked(b, x)
  {
  }

  lemma NoMarks()
    ensures LastTen(AgainstOf([])) == [] && LastTen(MovingOf([])) == []
  {
  }

  lemma NewIfNone(a: Acoustics, p: Params, e: Evidence, r: Reading)
    requires Acts(a, p, e, r)
    ensures e.stretch.None? ==> IsNew(a, p, e, r)
  {
  }

  /** The window's run is weighed, and with it the marks convict the step. */
  ghost predicate RefutesNow(a: Acoustics, p: Params, s: State, w: Window, tape: seq<Mark>)
    requires Well(s)
  {
    match Found(a, p, s, w)
    case None => false
    case Some(z) =>
      var x := Next(a, p, s, w).0.local.book;
      Weighs(a, p, z, w.run, x) && Convicts(RunMarks(a, p, z, w.run, x, tape))
  }

  lemma FoundFollows(a: Acoustics, p: Params, s: State, w: Window)
    requires Well(s) && Found(a, p, s, w).Some?
    ensures var l, z := Arrived(a, s, w).local, Found(a, p, s, w).value;
            && l.book.log <= z.book.log && !Marked(l.book, z.book)
            && (z.ev.stretch == l.ev.stretch || z.ev.stretch.None?)
            && (l.ev.stretch == s.local.ev.stretch || l.ev.stretch.None?)
  {
    hide Ready, Arrived, Marked, Grows;
    ArrivedWell(a, s, w);
    ArrivedStretch(a, s, w);
    var l := Arrived(a, s, w).local;
    ReadyFollows(a, p, l.(ev := l.ev.(run := l.ev.run + 1)), w.run);
  }

  lemma ReadyFollows(a: Acoustics, p: Params, l: Local, r: Reading)
    requires Sane(l)
    ensures var z := Ready(a, p, l, r);
            l.book.log <= z.book.log && !Marked(l.book, z.book) && (z.ev.stretch == l.ev.stretch || z.ev.stretch.None?)
  {
    hide Thin, IsNew, Confirmed, Grows;
    ConfirmedKeeps(a, p, Widened(a, p, Narrowed(a, p, Doubted(a, l, r), r), r).ev, r);
  }

  lemma ConfirmedKeeps(a: Acoustics, p: Params, e: Evidence, r: Reading)
    ensures Confirmed(a, p, e, r).stretch == e.stretch
  {
  }

  lemma {:induction false} NextHolds(a: Acoustics, p: Params, s: State, w: Window, tape: seq<Mark>)
    requires Well(s) && Holds(s.local.ev.stretch, tape)
    ensures var x := Next(a, p, s, w).0.local;
            && Holds(x.ev.stretch, Noted(a, p, s, w, tape))
            && (Undone(Arrived(a, s, w).local.book, x.book) <==> RefutesNow(a, p, s, w, tape))
  {
    hide Next, Arrived, Found, Acted, Acts, IsNew, Marked, Undone, Convicts, Grows, Replaces, SpeaksAgainst, Holds;
    var l, x := Arrived(a, s, w).local, Next(a, p, s, w).0.local;
    NextFrom(a, p, s, w);
    ArrivedStretch(a, s, w);
    HoldsNothing();
    match Found(a, p, s, w)
    case None => NoEntry(l.book, x.book);
    case Some(z) =>
      FoundFollows(a, p, s, w);
      MarkedIfUndone(l.book, z.book);
      if Acts(a, p, z.ev, w.run) {
        NewIfNone(a, p, z.ev, w.run);
        ActedFires(a, p, z, w.run, tape);
      } else {
        NoEntry(z.book, x.book);
      }
      EntriesSplit(l.book, z.book, x.book);
  }

  lemma ArrivedStretch(a: Acoustics, s: State, w: Window)
    ensures var e := Arrived(a, s, w).local.ev; e.stretch == s.local.ev.stretch || e.stretch.None?
  {
  }

  lemma HoldsNothing()
    ensures Holds(None, [])
  {
  }

  /** No marks so far: no stretch begun, or none weighed on it. */
  predicate Unmarked(s: State) {
    s.local.ev.stretch.Some? ==> s.local.ev.stretch.value.ring == [] && s.local.ev.stretch.value.moving == []
  }

  lemma {:induction false} TapeHolds(a: Acoustics, p: Params, s: State, ws: seq<Window>)
    requires Well(s) && Unmarked(s)
    ensures Holds(After(a, p, s, ws).local.ev.stretch, Tape(a, p, s, ws))
    decreases |ws|
  {
    hide Noted, Next, Holds, Grows;
    if ws == [] {
      UnmarkedHolds(s);
    } else {
      var n := |ws| - 1;
      TapeHolds(a, p, s, ws[..n]);
      NextHolds(a, p, After(a, p, s, ws[..n]), ws[n], Tape(a, p, s, ws[..n]));
    }
  }

  lemma UnmarkedHolds(s: State)
    requires Unmarked(s)
    ensures Holds(s.local.ev.stretch, [])
  {
    NoMarks();
  }

  /** Over every run from a state without marks: a window adds a refutation exactly when its run is weighed and, of the
      last ten weighed on the stretch since the last step, one taken back or refuted, at least eight speak against the
      step and at least two move. */
  lemma RefutedExactly(a: Acoustics, p: Params, s: State, ws: seq<Window>, w: Window)
    requires Well(s) && Unmarked(s)
    ensures var u := After(a, p, s, ws);
            Undone(Arrived(a, u, w).local.book, Next(a, p, u, w).0.local.book)
            <==> RefutesNow(a, p, u, w, Tape(a, p, s, ws))
  {
    hide Noted, Next, Holds, Undone, RefutesNow, Arrived, Grows, After;
    TapeHolds(a, p, s, ws);
    NextHolds(a, p, After(a, p, s, ws), w, Tape(a, p, s, ws));
  }

  // ---- Ten runs against a step

  /** The reference was replaced, or a step was taken, taken back or refuted. */
  ghost predicate Settled(b: Book, x: Book) {
    b.log <= x.log && (Marked(b, x) || Replaces(b, x))
  }

  /** A window of the context whose run acts on the stretch it finds, or begins the stretch, a step held, its level less
      than the gate's threshold under the reference, and speaks against the step. */
  ghost predicate Opposes(a: Acoustics, p: Params, s: State, w: Window, begins: bool)
    requires Well(s)
  {
    && w.key == s.key && !w.restart && Found(a, p, s, w).Some?
    && var z := Found(a, p, s, w).value;
       && Acts(a, p, z.ev, w.run) && (IsNew(a, p, z.ev, w.run) ==> begins)
       && z.book.core.prior.Some? && a.total(w.run.ref) > a.total(z.book.core.ref.value) - p.n
       && SpeaksAgainst(a, z, w.run)
  }

  ghost function Range(from: int, n: nat): set<int> {
    if n == 0 then {} else Range(from, n - 1) + {from + n - 1}
  }

  lemma {:induction false} RangeHolds(from: int, n: nat)
    ensures |Range(from, n)| == n && forall i :: i in Range(from, n) <==> from <= i < from + n
    decreases n
  {
    if n > 0 {
      RangeHolds(from, n - 1);
    }
  }

  /** The last marks are those of the last windows, all against. */
  ghost predicate AllAgainst(tape: seq<Mark>, ws: seq<Window>) {
    var from := |tape| - |ws|;
    from >= 0 && forall k :: from <= k < |tape| ==> tape[k] == Mark(true, !ws[k - from].run.rSteady)
  }

  lemma AgainstOnceMore(tape: seq<Mark>, ws: seq<Window>)
    requires ws != [] && AllAgainst(tape, ws[..|ws| - 1])
    ensures AllAgainst(tape + [Mark(true, !ws[|ws| - 1].run.rSteady)], ws)
  {
  }

  lemma TwoAtLeast(s: set<int>, i: int, j: int)
    requires i in s && j in s && i != j
    ensures |s| >= 2
  {
    assert s == s - {i} - {j} + {i} + {j};
  }

  lemma AllTen(tape: seq<Mark>)
    requires |tape| >= 10 && forall k :: |tape| - 10 <= k < |tape| ==> tape[k].against
    ensures |set k | |tape| - 10 <= k < |tape| && tape[k].against| >= 8
  {
    hide Range;
    RangeHolds(|tape| - 10, 10);
    assert (set k | |tape| - 10 <= k < |tape| && tape[k].against) == Range(|tape| - 10, 10);
  }

  lemma TwoOfTen(tape: seq<Mark>, i: nat, j: nat)
    requires |tape| >= 10 && |tape| - 10 <= i < j < |tape| && tape[i].moving && tape[j].moving
    ensures |set k | |tape| - 10 <= k < |tape| && tape[k].moving| >= 2
  {
    var moving := set k | |tape| - 10 <= k < |tape| && tape[k].moving;
    TwoAtLeast(moving, i, j);
  }

  lemma TenConvict(tape: seq<Mark>, ws: seq<Window>, i: nat, j: nat)
    requires AllAgainst(tape, ws) && |ws| == 10 && i < j < 10 && !ws[i].run.rSteady && !ws[j].run.rSteady
    ensures Convicts(tape)
  {
    AllTen(tape);
    TwoOfTen(tape, |tape| - 10 + i, |tape| - 10 + j);
  }

  /** What an opposing window does to the marks, unless it settles the step. */
  lemma OpposedNotes(a: Acoustics, p: Params, s: State, w: Window, begins: bool, tape: seq<Mark>)
    requires Well(s) && Opposes(a, p, s, w, begins) && Holds(s.local.ev.stretch, tape)
    ensures var b, x := s.local.book, Next(a, p, s, w).0.local.book;
            var kept := if begins && IsNew(a, p, Found(a, p, s, w).value.ev, w.run) then [] else tape;
            && b.log <= x.log && Next(a, p, s, w).0.key == s.key
            && (!Settled(b, x) ==> Noted(a, p, s, w, tape) == kept + [Mark(true, !w.run.rSteady)]
                                   && !Convicts(kept + [Mark(true, !w.run.rSteady)]))
  {
    hide Next, Found, Acted, Acts, IsNew, Marked, Undone, Convicts, Grows, Replaces, SpeaksAgainst, Holds;
    NextFrom(a, p, s, w);
    NextHolds(a, p, s, w, tape);
    FoundFollows(a, p, s, w);
    SameContext(a, p, s, w);
    var z, b, x := Found(a, p, s, w).value, s.local.book, Next(a, p, s, w).0.local.book;
    ActedFires(a, p, z, w.run, tape);
    EntriesSplit(b, z.book, x);
    MarkedIfUndone(b, x);
    MarkedIfUndone(z.book, x);
    NewIfNone(a, p, z.ev, w.run);
  }

  lemma SameContext(a: Acoustics, p: Params, s: State, w: Window)
    requires Well(s) && w.key == s.key && !w.restart
    ensures Arrived(a, s, w) == s && Next(a, p, s, w).0.key == s.key
  {
    hide Heard;
  }

  /** The history after some more windows. */
  function BookAfter(a: Acoustics, p: Params, s: State, ws: seq<Window>): Book
    requires Well(s)
  {
    After(a, p, s, ws).local.book
  }

  /** Some window so far settled the step. */
  ghost predicate SettledWithin(a: Acoustics, p: Params, s: State, before: seq<Window>, ws: seq<Window>)
    requires Well(s)
  {
    exists j :: 0 <= j <= |ws| && Settled(BookAfter(a, p, s, before), BookAfter(a, p, s, before + ws[..j]))
  }

  /** Every window opposes the step until it is settled. */
  ghost predicate AllOppose(a: Acoustics, p: Params, s: State, before: seq<Window>, ws: seq<Window>)
    requires Well(s)
  {
    forall k :: 0 <= k < |ws| ==>
      || SettledWithin(a, p, s, before, ws[..k])
      || Opposes(a, p, After(a, p, s, before + ws[..k]), ws[k], k == 0)
  }

  lemma SettledStays(a: Acoustics, p: Params, s: State, before: seq<Window>, ws: seq<Window>, n: nat)
    requires Well(s) && n <= |ws| && SettledWithin(a, p, s, before, ws[..n])
    ensures SettledWithin(a, p, s, before, ws)
  {
    hide Settled, BookAfter;
    var j :| 0 <= j <= n && Settled(BookAfter(a, p, s, before), BookAfter(a, p, s, before + ws[..n][..j]));
    assert ws[..n][..j] == ws[..j];
  }

  lemma SettlesAt(a: Acoustics, p: Params, s: State, before: seq<Window>, ws: seq<Window>)
    requires Well(s) && Settled(BookAfter(a, p, s, before), BookAfter(a, p, s, before + ws))
    ensures SettledWithin(a, p, s, before, ws)
  {
    hide Settled, BookAfter;
    assert ws[..|ws|] == ws;
  }

  lemma AfterLast(a: Acoustics, p: Params, s: State, before: seq<Window>, ws: seq<Window>)
    requires Well(s) && ws != []
    ensures var n := |ws| - 1;
            var u, tape := After(a, p, s, before + ws[..n]), Tape(a, p, s, before + ws[..n]);
            && After(a, p, s, before + ws) == Next(a, p, u, ws[n]).0
            && Tape(a, p, s, before + ws) == Noted(a, p, u, ws[n], tape)
  {
    hide Next, Noted, Well;
    var n := |ws| - 1;
    var all := before + ws;
    assert all[..|all| - 1] == before + ws[..n] && all[|all| - 1] == ws[n];
  }

  lemma SettledOn(b: Book, c: Book, d: Book)
    requires b.log <= c.log <= d.log
    ensures Settled(c, d) || Settled(b, c) ==> Settled(b, d)
  {
    EntriesSplit(b, c, d);
  }

  lemma {:induction false} OpposedGathers(a: Acoustics, p: Params, s: State, before: seq<Window>, ws: seq<Window>)
    requires Well(s) && Unmarked(s) && AllOppose(a, p, s, before, ws)
    ensures || SettledWithin(a, p, s, before, ws)
            || (AllAgainst(Tape(a, p, s, before + ws), ws)
                && BookAfter(a, p, s, before).log <= BookAfter(a, p, s, before + ws).log
                && (ws != [] ==> !Convicts(Tape(a, p, s, before + ws))))
    decreases |ws|
  {
    hide Next, Noted, Tape, After, Opposes, Settled, Convicts, SettledWithin, AllAgainst;
    if ws == [] {
      assert before + ws == before;
      NoneYet(Tape(a, p, s, before));
    } else {
      var n := |ws| - 1;
      AllOpposeBefore(a, p, s, before, ws);
      OpposedGathers(a, p, s, before, ws[..n]);
      if SettledWithin(a, p, s, before, ws[..n]) {
        SettledStays(a, p, s, before, ws, n);
      } else {
        var u, tape := After(a, p, s, before + ws[..n]), Tape(a, p, s, before + ws[..n]);
        TapeHolds(a, p, s, before + ws[..n]);
        OpposedNotes(a, p, u, ws[n], n == 0, tape);
        AfterLast(a, p, s, before, ws);
        SettledOn(BookAfter(a, p, s, before), u.local.book, BookAfter(a, p, s, before + ws));
        if Settled(u.local.book, BookAfter(a, p, s, before + ws)) {
          SettlesAt(a, p, s, before, ws);
        } else {
          AgainstOnceMore(tape, ws);
          if n == 0 {
            OneAgainst(ws);
          }
        }
      }
    }
  }

  lemma AllOpposeBefore(a: Acoustics, p: Params, s: State, before: seq<Window>, ws: seq<Window>)
    requires Well(s) && AllOppose(a, p, s, before, ws) && ws != []
    ensures AllOppose(a, p, s, before, ws[..|ws| - 1])
    ensures var n := |ws| - 1;
            || SettledWithin(a, p, s, before, ws[..n])
            || Opposes(a, p, After(a, p, s, before + ws[..n]), ws[n], n == 0)
  {
    hide SettledWithin, Opposes, After;
    var n := |ws| - 1;
    assert forall k :: 0 <= k <= n ==> ws[..n][..k] == ws[..k];
  }

  lemma NoneYet(tape: seq<Mark>)
    ensures AllAgainst(tape, [])
  {
  }

  lemma OneAgainst(ws: seq<Window>)
    requires |ws| == 1
    ensures AllAgainst([] + [Mark(true, !ws[0].run.rSteady)], ws)
  {
  }

  /** Ten runs in a row that oppose a held step, two of them moving, refute it, whatever was weighed before, unless the
      reference was replaced or stepped down first. */
  lemma RefutedByTen(a: Acoustics, p: Params, s: State, before: seq<Window>, ws: seq<Window>, i: nat, j: nat)
    requires Well(s) && Unmarked(s) && AllOppose(a, p, s, before, ws) && |ws| == 10
    requires i < j < 10 && !ws[i].run.rSteady && !ws[j].run.rSteady
    ensures SettledWithin(a, p, s, before, ws)
  {
    hide SettledWithin, AllOppose, Convicts, AllAgainst, Tape, BookAfter;
    OpposedGathers(a, p, s, before, ws);
    if AllAgainst(Tape(a, p, s, before + ws), ws) {
      TenConvict(Tape(a, p, s, before + ws), ws, i, j);
    }
  }
}
