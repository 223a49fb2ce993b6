/** When the reference is replaced or stepped down, told from the runs: over every run of windows the steps taken are
    those the runs gathered since the stretch began, the level moved or the last step bear out, to the reference their
    mean gives. */
module SquelchLearnerStepping {
  import opened Wrappers
  import opened SquelchLearner
  import opened SquelchLearnerTiming
  import opened SquelchLearnerRefuting

  // ---- Runs gathered

  /** A run's step against the reference when it has noise's spectrum, and whether its voice band held steady. */
  datatype Run = Run(noise: Option<real>, steady: bool) {
    predicate Held() {
      steady && noise.Some?
    }
  }

  /** Runs at one level under the reference. */
  datatype Low = Low(at: real, runs: seq<Run>)

  /** What a stretch has gathered: runs at a lower level, runs since a transition out of noise, and runs while open. */
  datatype Account = Account(low: Option<Low>, gain: Option<seq<Run>>, open: seq<bool>)

  const NOTHING := Account(None, None, [])

  function HeldOf(runs: seq<Run>): nat {
    if runs == [] then 0 else HeldOf(runs[..|runs| - 1]) + if runs[|runs| - 1].Held() then 1 else 0
  }

  function SumOf(runs: seq<Run>): real {
    if runs == [] then 0.0
    else SumOf(runs[..|runs| - 1]) + if runs[|runs| - 1].Held() then runs[|runs| - 1].noise.value else 0.0
  }

  function SteadyOf(open: seq<bool>): nat {
    if open == [] then 0 else SteadyOf(open[..|open| - 1]) + if open[|open| - 1] then 1 else 0
  }

  /** Three runs in four held noise's spectrum steadily, and those moved down by STEADY_DB or more on average. */
  predicate Fell(runs: seq<Run>) {
    HeldOf(runs) > 0 && 4 * HeldOf(runs) >= 3 * |runs| && SumOf(runs) <= -1.5 * HeldOf(runs) as real
  }

  function MeanOf(runs: seq<Run>): real
    requires HeldOf(runs) > 0
  {
    SumOf(runs) / HeldOf(runs) as real
  }

  /** Runs a lower level must show: 20, and after refutations in the stretch 30, 60, 120 and then 240. */
  predicate LongEnough(n: nat, refutes: nat) {
    match refutes
    case 0 => n >= 20
    case 1 => n >= 30
    case 2 => n >= 60
    case 3 => n >= 120
    case _ => n >= 240
  }

  predicate Tallies(t: Tally, runs: seq<Run>) {
    t == Tally(|runs|, HeldOf(runs), SumOf(runs))
  }

  /** A stretch's counts are of these runs. */
  predicate Accounts(s: Stretch, x: Account) {
    && (s.lower.Some? <==> x.low.Some?)
    && (s.lower.Some? ==> s.lower.value.at == x.low.value.at && Tallies(s.lower.value.tally, x.low.value.runs))
    && (s.pend.Some? <==> x.gain.Some?)
    && (s.pend.Some? ==> Tallies(s.pend.value, x.gain.value))
    && s.open == Open(|x.open|, SteadyOf(x.open))
  }

  lemma CountedTallies(t: Tally, runs: seq<Run>, run: Run)
    requires Tallies(t, runs)
    ensures Tallies(Counted(t, run.noise, run.steady), runs + [run])
  {
    assert (runs + [run])[..|runs|] == runs;
  }

  lemma MeanScaled(sum: real, n: nat)
    requires n > 0
    ensures sum / n as real <= -STEADY_DB <==> sum <= -1.5 * n as real
  {
    var q := sum / n as real;
    assert sum == q * n as real;
    if q <= -1.5 {
      assert (q + 1.5) * n as real <= 0.0;
    } else {
      assert (q + 1.5) * n as real > 0.0;
    }
  }

  lemma FellTallies(t: Tally, runs: seq<Run>)
    requires Tallies(t, runs)
    ensures MovedDown(t) <==> Fell(runs)
    ensures Fell(runs) ==> Mean(t) == MeanOf(runs)
  {
    if HeldOf(runs) > 0 {
      MeanScaled(SumOf(runs), HeldOf(runs));
    }
  }

  // ---- The run's phases that step

  /** The account after a run at a lower level, and the reference it steps to. */
  function LowNoted(a: Acoustics, w: Work, r: Reading, x: Account): (Account, Option<Ref>)
    requires Fit(w)
  {
    var c, sa, run := w.book.core, a.total(r.ref), Run(w.noise, r.vSteady);
    if x.gain.Some? then (x, None)
    else if w.stretch.refutes > 0 && w.speech then (x.(low := None), None)
    else if c.ref.None? || sa >= a.total(c.ref.value) - 1.5 then (x, None)
    else
      var kept := x.low.Some? && -1.5 <= sa - x.low.value.at <= 1.5;
      var low := if kept then Low(x.low.value.at, x.low.value.runs + [run]) else Low(sa, [run]);
      if LongEnough(|low.runs|, w.stretch.refutes) && Fell(low.runs)
      then (x.(low := None), Some(a.shifted(c.ref.value, MeanOf(low.runs))))
      else (x.(low := Some(low)), None)
  }

  /** After a run since a transition out of noise, ten of which settle it. */
  function GainNoted(a: Acoustics, w: Work, r: Reading, x: Account): (Account, Option<Ref>)
    requires Fit(w)
  {
    if x.gain.None? || w.book.core.ref.None? then (x, None)
    else
      var runs := x.gain.value + [Run(w.noise, r.vSteady)];
      if |runs| < 10 then (x.(gain := Some(runs)), None)
      else if Fell(runs) then (Account(None, None, x.open), Some(a.shifted(w.book.core.ref.value, MeanOf(runs))))
      else (x.(gain := None), None)
  }

  /** After a run while open: 250 of them, nine in ten steady, are a level that dropped. */
  function OpenNoted(w: Work, gate: bool, r: Reading, x: Account): (Account, Option<Ref>) {
    if !gate || !Judging(w.book.core) then (x, None)
    else
      var open := x.open + [r.vSteady];
      if |open| >= 250 && 10 * SteadyOf(open) >= 9 * |open| then (x.(open := []), Some(r.ref))
      else (x.(open := open), None)
  }

  /** The phase took that step, or none. */
  predicate Took(b: Book, x: Book, step: Option<Ref>) {
    match step
    case None => x.log == b.log && x.core.ref == b.core.ref && x.core.prior == b.core.prior
    case Some(ref) =>
      x.log == b.log + [Entry(Step, b.core.ref, Some(ref))] && x.core.ref == Some(ref) && x.core.prior.Some?
  }

  /** A carrier that keyed makes a provisional reference a known one. */
  function Keyed(mode: Mode, carrier: bool): Mode {
    if mode == Provisional && carrier then Known else mode
  }

  lemma LowTaken(a: Acoustics, w: Work, r: Reading, x: Account)
    requires Fit(w) && Accounts(w.stretch, x)
    ensures var y, (z, step) := Lowered(a, w, r), LowNoted(a, w, r, x);
            && Accounts(y.stretch, z) && Took(w.book, y.book, step) && y.noise == w.noise
            && y.book.core.mode == Keyed(w.book.core.mode, step.Some?)
  {
    hide MovedDown, Mean, Counted, Fell, HeldOf, SumOf, SteadyOf, MeanOf, Grows;
    var c, s, sa, run := w.book.core, w.stretch, a.total(r.ref), Run(w.noise, r.vSteady);
    NoRuns();
    if s.pend.None? && c.ref.Some? && sa < a.total(c.ref.value) - STEADY_DB {
      var kept := x.low.Some? && -1.5 <= sa - x.low.value.at <= 1.5;
      var runs := if kept then x.low.value.runs else [];
      var t := if kept then s.lower.value.tally else Tally(0, 0, 0.0);
      CountedTallies(t, runs, run);
      assert [] + [run] == [run];
      FellTallies(Counted(t, w.noise, r.vSteady), runs + [run]);
      HoldIsLong(|runs| + 1, s.refutes);
    }
  }

  lemma NoRuns()
    ensures Tallies(Tally(0, 0, 0.0), []) && SteadyOf([]) == 0
  {
  }

  lemma HoldIsLong(n: nat, refutes: nat)
    ensures n >= Hold(refutes) <==> LongEnough(n, refutes)
  {
  }

  lemma GainTaken(a: Acoustics, w: Work, r: Reading, x: Account)
    requires Fit(w) && Accounts(w.stretch, x)
    ensures var y, (z, step) := Gained(a, w, r), GainNoted(a, w, r, x);
            && Accounts(y.stretch, z) && Took(w.book, y.book, step)
            && y.book.core.mode == Keyed(w.book.core.mode, x.gain.Some? && z.gain.None? && step.None?)
            && y.noise == w.noise
  {
    hide MovedDown, Mean, Counted, Fell, HeldOf, SumOf, SteadyOf, MeanOf, Grows;
    if x.gain.Some? {
      CountedTallies(w.stretch.pend.value, x.gain.value, Run(w.noise, r.vSteady));
      FellTallies(Counted(w.stretch.pend.value, w.noise, r.vSteady), x.gain.value + [Run(w.noise, r.vSteady)]);
    }
  }

  lemma OpenTaken(a: Acoustics, w: Work, gate: bool, r: Reading, x: Account)
    requires Fit(w) && Accounts(w.stretch, x)
    ensures var y, (z, step) := Staled(a, w, gate, r), OpenNoted(w, gate, r, x);
            && Accounts(y.stretch, z) && Took(w.book, y.book, step) && y.book.core.mode == w.book.core.mode
            && y.noise == w.noise
  {
    hide HeldOf, SumOf, SteadyOf, Tallies, Unrefuted, Grows;
    SteadyLast(x.open, r.vSteady);
    if gate && Judging(w.book.core) {
      StepBooks(a, w.(stretch := w.stretch.(open := Open(0, 0))), r.ref);
    }
    NoRuns();
  }

  lemma SteadyLast(open: seq<bool>, steady: bool)
    ensures SteadyOf(open + [steady]) == SteadyOf(open) + if steady then 1 else 0
  {
    assert (open + [steady])[..|open|] == open;
  }

  lemma StepBooks(a: Acoustics, w: Work, ref: Ref)
    requires Fit(w) && w.book.core.ref.Some?
    ensures var y := StepTaken(a, w, ref);
            && Took(w.book, y.book, Some(ref))
            && y.stretch == w.stretch.(ring := [], moving := [], atRef := true)
  {
  }

  // ---- A level judged

  /** Noise may replace the reference: no step is held over it, or the run has noise's spectrum. */
  predicate MayReplace(a: Acoustics, z: Local, r: Reading)
    requires Coherent(z.book.core) && Judging(z.book.core)
  {
    z.book.core.prior.None? || a.noiseStep(r.ref, z.book.core.ref.value, z.ev.part).Some?
  }

  /** The change of the level since the stretch the run ends, and of the voice band's. */
  predicate BothAlike(a: Acoustics, p: Params, s: Stretch, r: Reading)
    requires s.voice.n > 0
  {
    var apart := (a.total(r.ref) - s.a) - (r.ref.voice - a.level(s.voice.sum / s.voice.n as real));
    -p.gain <= apart <= p.gain
  }

  /** A confirmed new level is noise louder than the reference: anything while learning, more than a step over it on a
      first stretch, and otherwise louder than the stretch before and no more than a step under the reference. */
  predicate Louder(a: Acoustics, p: Params, z: Local, r: Reading)
    requires Sane(z)
  {
    var c, sa := z.book.core, a.total(r.ref);
    match c.mode
    case Learning => true
    case NoBand => false
    case _ =>
      && MayReplace(a, z, r)
      && if z.ev.stretch.None? then sa > a.total(c.ref.value) + p.step
         else sa > z.ev.stretch.value.a && sa >= a.total(c.ref.value) - p.step
  }

  /** A confirmed new level is quieter, out of steady noise at the reference and with both bands alike: a gain step, if
      ten runs bear it out. */
  predicate GainBegins(a: Acoustics, p: Params, z: Local, r: Reading)
    requires Sane(z)
  {
    && Judging(z.book.core) && z.ev.stretch.Some?
    && var s := z.ev.stretch.value;
       && a.total(r.ref) <= s.a && BothAlike(a, p, s, r) && r.vSteady
       && s.atRef && 2 * s.voice.steady >= s.voice.n
  }

  /** A confirmed new level is a carrier: quieter and no gain step, or noise louder whose bands moved apart. */
  predicate CarrierKeys(a: Acoustics, p: Params, z: Local, r: Reading)
    requires Sane(z)
  {
    && z.ev.stretch.Some?
    && if a.total(r.ref) > z.ev.stretch.value.a
       then Louder(a, p, z, r) && !BothAlike(a, p, z.ev.stretch.value, r)
       else !GainBegins(a, p, z, r)
  }

  lemma JudgedExactly(a: Acoustics, p: Params, z: Local, r: Reading)
    requires Sane(z)
    ensures var c := z.book.core;
            var noise := if Judging(c) then a.noiseStep(r.ref, c.ref.value, z.ev.part) else None;
            var (x, pending) := Judged(a, p, z.book, z.ev.stretch, noise, r);
            && (pending <==> GainBegins(a, p, z, r))
            && x.log == z.book.log + (if Louder(a, p, z, r) then [Entry(Replacement, c.ref, Some(r.ref))] else [])
            && x.core.ref == (if Louder(a, p, z, r) then Some(r.ref) else c.ref)
            && x.core.mode == if c.mode == Learning then Provisional else Keyed(c.mode, CarrierKeys(a, p, z, r))
  {
  }

  // ---- One run

  /** The new references of the entries of a kind, in order. */
  function KindRefs(entries: seq<Entry>, kind: Kind): seq<Option<Ref>> {
    if entries == [] then []
    else
      var last := entries[|entries| - 1];
      KindRefs(entries[..|entries| - 1], kind) + if last.kind == kind then [last.after] else []
  }

  /** The entries of a kind added since. */
  function Since(b: Book, x: Book, kind: Kind): seq<Option<Ref>>
    requires b.log <= x.log
  {
    KindRefs(x.log[|b.log|..], kind)
  }

  lemma {:induction false} KindRefsAppend(x: seq<Entry>, y: seq<Entry>, kind: Kind)
    ensures KindRefs(x + y, kind) == KindRefs(x, kind) + KindRefs(y, kind)
    decreases |y|
  {
    if y == [] {
      assert x + y == x;
    } else {
      KindRefsAppend(x, y[..|y| - 1], kind);
      assert (x + y)[..|x + y| - 1] == x + y[..|y| - 1];
    }
  }

  lemma SinceOn(b: Book, x: Book, y: Book)
    requires b.log <= x.log <= y.log
    ensures forall kind :: Since(b, y, kind) == Since(b, x, kind) + Since(x, y, kind)
  {
    hide KindRefs;
    assert y.log[|b.log|..] == x.log[|b.log|..] + y.log[|x.log|..];
    forall kind ensures Since(b, y, kind) == Since(b, x, kind) + Since(x, y, kind) {
      KindRefsAppend(x.log[|b.log|..], y.log[|x.log|..], kind);
    }
  }

  lemma OneSince(b: Book, x: Book, e: Entry)
    requires x.log == b.log + [e]
    ensures forall kind :: Since(b, x, kind) == if e.kind == kind then [e.after] else []
  {
    assert x.log[|b.log|..] == [e];
    forall kind ensures Since(b, x, kind) == if e.kind == kind then [e.after] else [] {
      assert [e][..0] == [];
      assert KindRefs([], kind) + [e.after] == [e.after];
    }
  }

  lemma NoneSince(b: Book, x: Book)
    requires x.log == b.log
    ensures forall kind :: Since(b, x, kind) == []
  {
    assert x.log[|b.log|..] == [];
  }

  function Listed(step: Option<Ref>): seq<Option<Ref>> {
    if step.Some? then [step] else []
  }

  /** A phase added an entry of a kind, or none. */
  ghost predicate AddsOnly(b: Book, x: Book, kind: Kind, ref: Option<Ref>) {
    b.log <= x.log && forall k :: Since(b, x, k) == if k == kind then Listed(ref) else []
  }

  lemma TookListed(b: Book, x: Book, step: Option<Ref>)
    requires Took(b, x, step)
    ensures b.log <= x.log && AddsOnly(b, x, Step, step)
  {
    hide Since;
    if step.Some? {
      OneSince(b, x, Entry(Step, b.core.ref, step));
    } else {
      NoneSince(b, x);
    }
  }

  /** The run once its level is judged and the held and the refuted step have had their say. */
  function Middle(a: Acoustics, p: Params, z: Local, r: Reading): (m: Work)
    requires Sane(z) && Acts(a, p, z.ev, r)
    ensures Fit(m)
  {
    var c := z.book.core;
    var louder := Judging(c) && a.louder(r.ref, c.ref.value, z.ev.part, 1.0);
    TakeStepBack(a, Refute(a, p, Begun(a, p, z, r), louder, r), r)
  }

  /** No step and no drift was added. */
  ghost predicate Calm(b: Book, x: Book) {
    b.log <= x.log && Since(b, x, Step) == [] && Since(b, x, Drift) == []
  }

  ghost predicate GivesBack(b: Book, x: Book) {
    exists k :: |b.log| <= k < |x.log| && x.log[k].kind == TakeBack
  }

  /** A new level starts over, with a gain step begun or not. */
  function BegunAccount(a: Acoustics, p: Params, z: Local, r: Reading, x: Account): Account
    requires Sane(z)
  {
    if !IsNew(a, p, z.ev, r) then x else Account(None, if GainBegins(a, p, z, r) then Some([]) else None, [])
  }

  /** What is gathered at that point: a refutation drops the runs, and a step taken back the time open with them. */
  ghost function MiddleAccount(a: Acoustics, p: Params, z: Local, r: Reading, x: Account): Account
    requires Sane(z) && Acts(a, p, z.ev, r)
  {
    var m := Middle(a, p, z, r);
    var begun := BegunAccount(a, p, z, r, x);
    if GivesBack(z.book, m.book) then NOTHING
    else if Undone(z.book, m.book) then Account(None, None, begun.open)
    else begun
  }

  lemma MiddleAccounts(a: Acoustics, p: Params, z: Local, r: Reading, x: Account)
    requires Sane(z) && Acts(a, p, z.ev, r)
    requires z.ev.stretch.None? || IsNew(a, p, z.ev, r) || Accounts(z.ev.stretch.value, x)
    ensures var m := Middle(a, p, z, r);
            Accounts(m.stretch, MiddleAccount(a, p, z, r, x)) && z.book.log <= m.book.log && Calm(z.book, m.book)
  {
    hide Refute, TakeStepBack, Begun, Since, Undone, GivesBack, Judged, Accounts, IsNew, Acts, GainBegins, Grows;
    var c := z.book.core;
    var louder := Judging(c) && a.louder(r.ref, c.ref.value, z.ev.part, 1.0);
    var w := Begun(a, p, z, r);
    var begun := BegunAccount(a, p, z, r, x);
    NewIfNone(a, p, z.ev, r);
    BegunAccounts(a, p, z, r, x);
    RefuteAccounts(a, p, w, louder, r, begun);
    var x1 := Refute(a, p, w, louder, r);
    var undone := if Undone(w.book, x1.book) then Account(None, None, begun.open) else begun;
    BackAccounts(a, x1, r, undone);
    var m := TakeStepBack(a, x1, r);
    SinceOn(z.book, w.book, x1.book);
    SinceOn(z.book, x1.book, m.book);
    EntriesSplit(z.book, w.book, x1.book);
    EntriesSplit(z.book, x1.book, m.book);
    BackSplit(z.book, w.book, x1.book);
    BackSplit(z.book, x1.book, m.book);
  }

  lemma BackSplit(b: Book, x: Book, y: Book)
    requires b.log <= x.log <= y.log
    ensures GivesBack(b, y) <==> GivesBack(b, x) || GivesBack(x, y)
  {
    assert forall k :: |b.log| <= k < |x.log| ==> x.log[k] == y.log[k];
    if GivesBack(b, x) {
      var k :| |b.log| <= k < |x.log| && x.log[k].kind == TakeBack;
      assert y.log[k] == x.log[k];
    }
  }

  lemma BegunAccounts(a: Acoustics, p: Params, z: Local, r: Reading, x: Account)
    requires Sane(z) && Acts(a, p, z.ev, r)
    requires IsNew(a, p, z.ev, r) || Accounts(z.ev.stretch.value, x)
    ensures var w := Begun(a, p, z, r);
            && Accounts(w.stretch, BegunAccount(a, p, z, r, x)) && z.book.log <= w.book.log && Calm(z.book, w.book)
            && !Undone(z.book, w.book) && !GivesBack(z.book, w.book)
  {
    hide Since, Undone, GivesBack, Judged, GainBegins, Louder, CarrierKeys, Grows;
    NoRuns();
    if IsNew(a, p, z.ev, r) {
      JudgedExactly(a, p, z, r);
      var w := Begun(a, p, z, r);
      if Louder(a, p, z, r) {
        OneSince(z.book, w.book, Entry(Replacement, z.book.core.ref, Some(r.ref)));
        OneEntry(z.book, w.book, Entry(Replacement, z.book.core.ref, Some(r.ref)));
        OneBack(z.book, w.book, Entry(Replacement, z.book.core.ref, Some(r.ref)));
      } else {
        Nothing(z.book, w.book);
      }
    } else {
      Nothing(z.book, z.book);
    }
  }

  lemma Nothing(b: Book, x: Book)
    requires x.log == b.log
    ensures b.log <= x.log && Calm(b, x) && !Undone(b, x) && !GivesBack(b, x)
  {
    NoneSince(b, x);
  }

  lemma OneBack(b: Book, x: Book, e: Entry)
    requires x.log == b.log + [e]
    ensures GivesBack(b, x) <==> e.kind == TakeBack
  {
    assert x.log[|b.log|] == e;
  }

  lemma RefuteAccounts(a: Acoustics, p: Params, w: Work, louder: bool, r: Reading, x: Account)
    requires Fit(w) && Accounts(w.stretch, x)
    ensures var y := Refute(a, p, w, louder, r);
            && Accounts(y.stretch, if Undone(w.book, y.book) then Account(None, None, x.open) else x)
            && w.book.log <= y.book.log && Calm(w.book, y.book) && !GivesBack(w.book, y.book)
  {
    hide Since, Undone, GivesBack, Against, Marks, Last, Grows;
    var y := Refute(a, p, w, louder, r);
    if y.book.log == w.book.log {
      Nothing(w.book, y.book);
    } else {
      var e := Entry(Refutation, w.book.core.ref, Some(w.book.core.prior.value.ref));
      OneSince(w.book, y.book, e);
      OneEntry(w.book, y.book, e);
      OneBack(w.book, y.book, e);
    }
  }

  lemma BackAccounts(a: Acoustics, w: Work, r: Reading, x: Account)
    requires Fit(w) && Accounts(w.stretch, x)
    ensures var y := TakeStepBack(a, w, r);
            && Accounts(y.stretch, if GivesBack(w.book, y.book) then NOTHING else x)
            && w.book.log <= y.book.log && Calm(w.book, y.book) && !Undone(w.book, y.book)
  {
    hide Since, Undone, GivesBack, Grows;
    var y := TakeStepBack(a, w, r);
    NoRuns();
    if y.book.log == w.book.log {
      Nothing(w.book, y.book);
    } else {
      var e := Entry(TakeBack, w.book.core.ref, y.book.core.ref);
      OneSince(w.book, y.book, e);
      OneEntry(w.book, y.book, e);
      OneBack(w.book, y.book, e);
    }
  }

  /** Where a run at or above the reference less STEADY_DB draws it: no gain step pending, and with a step held only a
      run with noise's spectrum. The last step of the run itself is the reference by then. */
  function DriftNoted(a: Acoustics, m: Work, r: Reading, pending: bool, step: Option<Ref>): Option<Ref>
    requires Fit(m)
  {
    var ref := if step.Some? then step else m.book.core.ref;
    var held := step.Some? || m.book.core.prior.Some?;
    if Judging(m.book.core) && !pending && (!held || m.noise.Some?) && a.total(r.ref) >= a.total(ref.value) - 1.5
    then Some(a.blended(ref.value, r.ref)) else None
  }

  function Latest(one: Option<Ref>, two: Option<Ref>, three: Option<Ref>): Option<Ref> {
    if three.Some? then three else if two.Some? then two else one
  }

  /** What an acting run adds to what is gathered, the references it steps to, and where it draws the last. */
  ghost function RunNoted(a: Acoustics, p: Params, z: Local, r: Reading, x: Account)
    : (Account, seq<Option<Ref>>, Option<Ref>)
    requires Sane(z) && Acts(a, p, z.ev, r)
  {
    var m := Middle(a, p, z, r);
    var (low, one) := LowNoted(a, m, r, MiddleAccount(a, p, z, r, x));
    var (gain, two) := GainNoted(a, m, r, low);
    var (open, three) := OpenNoted(m, z.ev.gate, r, gain);
    (open, Listed(one) + Listed(two) + Listed(three), DriftNoted(a, m, r, gain.gain.Some?, Latest(one, two, three)))
  }

  lemma TrailedDrifts(a: Acoustics, w: Work, r: Reading, x: Account, m: Work, step: Option<Ref>)
    requires Fit(w) && Accounts(w.stretch, x) && Fit(m) && m.noise == w.noise
    requires Judging(m.book.core) <==> Judging(w.book.core)
    requires w.book.core.ref == if step.Some? then step else m.book.core.ref
    requires w.book.core.prior.Some? <==> step.Some? || m.book.core.prior.Some?
    ensures var y := Trailed(a, w, r);
            && Accounts(y.stretch, x) && w.book.log <= y.book.log
            && AddsOnly(w.book, y.book, Drift, DriftNoted(a, m, r, x.gain.Some?, step))
            && y.book.core.mode == w.book.core.mode
  {
    hide Since, Tallies, Grows;
    var y := Trailed(a, w, r);
    if y.book.log == w.book.log {
      NoneSince(w.book, y.book);
    } else {
      OneSince(w.book, y.book, Entry(Drift, w.book.core.ref, y.book.core.ref));
    }
  }

  /** From the middle of the run on. */
  lemma SettlingSteps(a: Acoustics, m: Work, gate: bool, r: Reading, x: Account)
    requires Fit(m) && Accounts(m.stretch, x)
    ensures var (low, one) := LowNoted(a, m, r, x);
            var (gain, two) := GainNoted(a, m, r, low);
            var (open, three) := OpenNoted(m, gate, r, gain);
            var y := Trailed(a, Staled(a, Gained(a, Lowered(a, m, r), r), gate, r), r);
            && Accounts(y.stretch, open) && m.book.log <= y.book.log
            && Since(m.book, y.book, Step) == Listed(one) + Listed(two) + Listed(three)
            && Since(m.book, y.book, Drift)
               == Listed(DriftNoted(a, m, r, gain.gain.Some?, Latest(one, two, three)))
            && Since(m.book, y.book, TakeBack) == []
            && y.book.core.mode
               == Keyed(m.book.core.mode, one.Some? || (low.gain.Some? && gain.gain.None? && two.None?))
  {
    hide Lowered, Gained, Staled, Trailed, Accounts, Since, Fell, MeanOf, Listed, Grows, LongEnough, LowNoted,
         GainNoted, OpenNoted, DriftNoted;
    LowTaken(a, m, r, x);
    var x3 := Lowered(a, m, r);
    var (low, one) := LowNoted(a, m, r, x);
    GainTaken(a, x3, r, low);
    SameGain(a, m, x3, r, x);
    var x4 := Gained(a, x3, r);
    var (gain, two) := GainNoted(a, m, r, low);
    OpenTaken(a, x4, gate, r, gain);
    SameOpen(m, x4, gate, r, gain);
    var x5 := Staled(a, x4, gate, r);
    var (open, three) := OpenNoted(m, gate, r, gain);
    GainPending(m, gate, r, gain);
    TrailedDrifts(a, x5, r, open, m, Latest(one, two, three));
    var y := Trailed(a, x5, r);
    TookListed(m.book, x3.book, one);
    TookListed(x3.book, x4.book, two);
    TookListed(x4.book, x5.book, three);
    SinceOn(m.book, x3.book, x4.book);
    SinceOn(m.book, x4.book, x5.book);
    SinceOn(m.book, x5.book, y.book);
    assert Listed(one) + Listed(two) + Listed(three) + [] == Listed(one) + Listed(two) + Listed(three);
  }

  lemma GainPending(m: Work, gate: bool, r: Reading, x: Account)
    ensures OpenNoted(m, gate, r, x).0.gain == x.gain
  {
  }

  /** While a gain step is pending nothing lower is stepped to, so the gain is reckoned from the same reference. */
  lemma SameGain(a: Acoustics, m: Work, w: Work, r: Reading, x: Account)
    requires Fit(m) && Fit(w) && Accounts(m.stretch, x) && w == Lowered(a, m, r)
    requires Accounts(w.stretch, LowNoted(a, m, r, x).0)
    ensures var low := LowNoted(a, m, r, x).0;
            GainNoted(a, w, r, low) == GainNoted(a, m, r, low)
  {
    hide Fell, MeanOf, Grows, LongEnough, Counted, MovedDown, Mean, Hold, Tallies;
  }

  lemma SameOpen(m: Work, w: Work, gate: bool, r: Reading, x: Account)
    requires Judging(m.book.core) <==> Judging(w.book.core)
    ensures OpenNoted(w, gate, r, x) == OpenNoted(m, gate, r, x)
  {
  }

  lemma ActedSteps(a: Acoustics, p: Params, z: Local, r: Reading, x: Account)
    requires Sane(z) && Acts(a, p, z.ev, r)
    requires z.ev.stretch.None? || IsNew(a, p, z.ev, r) || Accounts(z.ev.stretch.value, x)
    ensures var y, (after, steps, drift) := Acted(a, p, z, r), RunNoted(a, p, z, r, x);
            && y.ev.stretch.Some? && Accounts(y.ev.stretch.value, after)
            && z.book.log <= y.book.log
            && Since(z.book, y.book, Step) == steps && Since(z.book, y.book, Drift) == Listed(drift)
  {
    hide Refute, TakeStepBack, Begun, Lowered, Gained, Staled, Trailed, Since, Accounts, MiddleAccount, LowNoted,
         GainNoted, OpenNoted, Listed, IsNew, Acts, Grows;
    MiddleAccounts(a, p, z, r, x);
    var m := Middle(a, p, z, r);
    SettlingSteps(a, m, z.ev.gate, r, MiddleAccount(a, p, z, r, x));
    SinceOn(z.book, m.book, Acted(a, p, z, r).book);
  }

  // ---- Any number of windows

  ghost predicate AccountHolds(stretch: Option<Stretch>, x: Account) {
    stretch.Some? ==> Accounts(stretch.value, x)
  }

  /** What a window adds to what is gathered, the references it steps to, and where it draws the last. */
  ghost function WindowNoted(a: Acoustics, p: Params, s: State, w: Window, x: Account)
    : (Account, seq<Option<Ref>>, Option<Ref>)
    requires Well(s)
  {
    match Found(a, p, s, w)
    case None => (x, [], None)
    case Some(z) =>
      if Acts(a, p, z.ev, w.run) then RunNoted(a, p, z, w.run, x) else (x, [], None)
  }

  lemma NextSteps(a: Acoustics, p: Params, s: State, w: Window, x: Account)
    requires Well(s) && AccountHolds(s.local.ev.stretch, x)
    ensures var l, y := Arrived(a, s, w).local, Next(a, p, s, w).0.local;
            var (after, steps, drift) := WindowNoted(a, p, s, w, x);
            && AccountHolds(y.ev.stretch, after)
            && l.book.log <= y.book.log
            && Since(l.book, y.book, Step) == steps && Since(l.book, y.book, Drift) == Listed(drift)
  {
    hide Next, Arrived, Ready, Acted, Acts, IsNew, Accounts, RunNoted, Since, EndsNoBand, Grows;
    ArrivedWell(a, s, w);
    var l, y := Arrived(a, s, w).local, Next(a, p, s, w).0.local;
    NextFrom(a, p, s, w);
    ArrivedStretch(a, s, w);
    match Found(a, p, s, w)
    case None => NoneSince(l.book, y.book);
    case Some(z) =>
      FoundFollows(a, p, s, w);
      ReadyReplaces(a, p, Counting(a, s, w), w.run);
      ReplacementCalm(l.book, z.book, w.run.ref, EndsNoBand(a, p, Counting(a, s, w), w.run));
      if Acts(a, p, z.ev, w.run) {
        ActedSteps(a, p, z, w.run, x);
      } else {
        NoneSince(z.book, y.book);
      }
      SinceOn(l.book, z.book, y.book);
  }


  /** What the windows so far have gathered. */
  ghost function Gathering(a: Acoustics, p: Params, s: State, ws: seq<Window>): Account
    requires Well(s)
    decreases |ws|
  {
    if ws == [] then NOTHING
    else
      var n := |ws| - 1;
      WindowNoted(a, p, After(a, p, s, ws[..n]), ws[n], Gathering(a, p, s, ws[..n])).0
  }

  lemma {:induction false} GatheringHolds(a: Acoustics, p: Params, s: State, ws: seq<Window>)
    requires Well(s) && AccountHolds(s.local.ev.stretch, NOTHING)
    ensures AccountHolds(After(a, p, s, ws).local.ev.stretch, Gathering(a, p, s, ws))
    decreases |ws|
  {
    hide Next, AccountHolds, WindowNoted, Grows;
    if ws != [] {
      var n := |ws| - 1;
      GatheringHolds(a, p, s, ws[..n]);
      NextSteps(a, p, After(a, p, s, ws[..n]), ws[n], Gathering(a, p, s, ws[..n]));
    }
  }

  /** Over every run from a state with nothing gathered: the steps a window adds are those what was gathered so far,
      with its run, bears out, in order and each to the reference it gives; and it draws the reference exactly when its
      run may, toward that run. */
  lemma SteppedExactly(a: Acoustics, p: Params, s: State, ws: seq<Window>, w: Window)
    requires Well(s) && AccountHolds(s.local.ev.stretch, NOTHING)
    ensures var u := After(a, p, s, ws);
            var l, y := Arrived(a, u, w).local, Next(a, p, u, w).0.local;
            var (_, steps, drift) := WindowNoted(a, p, u, w, Gathering(a, p, s, ws));
            && l.book.log <= y.book.log
            && Since(l.book, y.book, Step) == steps && Since(l.book, y.book, Drift) == Listed(drift)
  {
    hide Next, Arrived, AccountHolds, WindowNoted, Gathering, After, Since, Grows;
    GatheringHolds(a, p, s, ws);
    NextSteps(a, p, After(a, p, s, ws), w, Gathering(a, p, s, ws));
  }

  // ---- Replacements and the mode

  /** The run ends the no-band state: one that shows a band, steady throughout, as the last of enough in a row. */
  predicate EndsNoBand(a: Acoustics, p: Params, l: Local, r: Reading)
    requires Sane(l)
  {
    var c := l.book.core;
    var thin := a.usable(Some(a.participating(r.ref))) < 1200.0;
    var atCeiling := c.ref.None? || a.total(r.ref) >= a.total(c.ref.value) - p.step;
    var noBand := c.mode == NoBand || (if r.vSteady && thin && atCeiling then l.ev.nb + 1 else 0) >= p.noBand;
    (if noBand && r.steady && r.vSteady && !thin then l.ev.exitN + 1 else 0) >= p.noBand
  }

  /** The learner with its windows counted, as a window that measures a run begins. */
  function Counting(a: Acoustics, s: State, w: Window): Local {
    var l := Arrived(a, s, w).local;
    l.(ev := l.ev.(run := l.ev.run + 1))
  }

  lemma ReadyReplaces(a: Acoustics, p: Params, l: Local, r: Reading)
    requires Sane(l)
    ensures var z := Ready(a, p, l, r);
            z.book.log == if EndsNoBand(a, p, l, r) then l.book.log + [Entry(Replacement, l.book.core.ref, Some(r.ref))]
                          else l.book.log
  {
    hide Confirmed, Grows;
  }

  lemma ReplacementCalm(b: Book, x: Book, ref: Ref, replaced: bool)
    requires x.log == if replaced then b.log + [Entry(Replacement, b.core.ref, Some(ref))] else b.log
    ensures Calm(b, x) && Since(b, x, TakeBack) == []
  {
    hide Since;
    if replaced {
      OneSince(b, x, Entry(Replacement, b.core.ref, Some(ref)));
    } else {
      NoneSince(b, x);
    }
  }

  /** Every replacement of the reference since is by this one. */
  ghost predicate ReplacedBy(b: Book, x: Book, ref: Ref) {
    forall k :: |b.log| <= k < |x.log| && x.log[k].kind == Replacement ==> x.log[k].after == Some(ref)
  }

  lemma ReplacedSplit(b: Book, x: Book, y: Book, ref: Ref)
    requires b.log <= x.log <= y.log && ReplacedBy(b, x, ref) && ReplacedBy(x, y, ref)
    ensures ReplacedBy(b, y, ref)
  {
    assert forall k :: |b.log| <= k < |x.log| ==> x.log[k] == y.log[k];
  }

  lemma EntryReplaces(b: Book, x: Book, ref: Ref, replaced: bool)
    requires x.log == if replaced then b.log + [Entry(Replacement, b.core.ref, Some(ref))] else b.log
    ensures b.log <= x.log && (Replaces(b, x) <==> replaced) && ReplacedBy(b, x, ref)
  {
    if replaced {
      OneEntry(b, x, Entry(Replacement, b.core.ref, Some(ref)));
    } else {
      NoEntry(b, x);
    }
  }

  lemma ActedReplaces(a: Acoustics, p: Params, z: Local, r: Reading)
    requires Sane(z) && Acts(a, p, z.ev, r)
    ensures var y := Acted(a, p, z, r).book;
            && z.book.log <= y.log && ReplacedBy(z.book, y, r.ref)
            && (Replaces(z.book, y) <==> IsNew(a, p, z.ev, r) && Louder(a, p, z, r))
  {
    hide Weighed, Judged, Louder, GainBegins, CarrierKeys, Summed, Replaces, ReplacedBy, IsNew, Acts, Grows;
    var c := z.book.core;
    var louder := Judging(c) && a.louder(r.ref, c.ref.value, z.ev.part, 1.0);
    var w, y := Begun(a, p, z, r), Acted(a, p, z, r).book;
    if IsNew(a, p, z.ev, r) {
      JudgedExactly(a, p, z, r);
    }
    EntryReplaces(z.book, w.book, r.ref, IsNew(a, p, z.ev, r) && Louder(a, p, z, r));
    WeighedFires(a, p, w, louder, z.ev.gate, r);
    EntriesSplit(z.book, w.book, y);
    NoneReplaced(w.book, y, r.ref);
    ReplacedSplit(z.book, w.book, y, r.ref);
  }

  lemma NoneReplaced(b: Book, x: Book, ref: Ref)
    requires !Replaces(b, x)
    ensures ReplacedBy(b, x, ref)
  {
  }

  /** A window replaces the reference exactly when its run ends the no-band state, or is of a new level, confirmed, and
      is noise louder than the reference; and then by the run itself. */
  lemma ReplacedExactly(a: Acoustics, p: Params, s: State, w: Window)
    requires Well(s)
    ensures var b, y := Arrived(a, s, w).local.book, Next(a, p, s, w).0.local.book;
            && b.log <= y.log && ReplacedBy(b, y, w.run.ref)
            && (Replaces(b, y) <==>
                  match Found(a, p, s, w)
                  case None => false
                  case Some(z) =>
                    || (Sane(Counting(a, s, w)) && EndsNoBand(a, p, Counting(a, s, w), w.run))
                    || (Acts(a, p, z.ev, w.run) && IsNew(a, p, z.ev, w.run) && Louder(a, p, z, w.run)))
  {
    hide Next, Arrived, Acted, Ready, Acts, IsNew, Louder, EndsNoBand, Replaces, ReplacedBy, Grows;
    ArrivedWell(a, s, w);
    NextFrom(a, p, s, w);
    var b, y := Arrived(a, s, w).local.book, Next(a, p, s, w).0.local.book;
    match Found(a, p, s, w)
    case None => EntryReplaces(b, y, w.run.ref, false);
    case Some(z) =>
      ReadyReplaces(a, p, Counting(a, s, w), w.run);
      EntryReplaces(b, z.book, w.run.ref, EndsNoBand(a, p, Counting(a, s, w), w.run));
      if Acts(a, p, z.ev, w.run) {
        ActedReplaces(a, p, z, w.run);
      } else {
        EntryReplaces(z.book, y, w.run.ref, false);
      }
      EntriesSplit(b, z.book, y);
      ReplacedSplit(b, z.book, y, w.run.ref);
  }

  /** The runs gathered show a carrier keyed: noise at its lower level came after one, or the ten runs since a
      transition out of noise do not bear out a gain step. */
  ghost predicate CarrierFound(a: Acoustics, p: Params, z: Local, r: Reading, x: Account)
    requires Sane(z) && Acts(a, p, z.ev, r)
  {
    var m := Middle(a, p, z, r);
    var (low, one) := LowNoted(a, m, r, MiddleAccount(a, p, z, r, x));
    var (gain, two) := GainNoted(a, m, r, low);
    one.Some? || (low.gain.Some? && gain.gain.None? && two.None?)
  }

  /** The mode an acting run leaves: provisional once anything was learned, and known once a carrier keyed, told by its
      level, by noise found lower after it, or by a gain step the ten runs did not bear out. */
  lemma ModeExactly(a: Acoustics, p: Params, z: Local, r: Reading, x: Account)
    requires Sane(z) && Acts(a, p, z.ev, r)
    requires z.ev.stretch.None? || IsNew(a, p, z.ev, r) || Accounts(z.ev.stretch.value, x)
    ensures var mode := z.book.core.mode;
            var judged := if !IsNew(a, p, z.ev, r) then mode else if mode == Learning then Provisional
                          else Keyed(mode, CarrierKeys(a, p, z, r));
            Acted(a, p, z, r).book.core.mode == Keyed(judged, CarrierFound(a, p, z, r, x))
  {
    hide Refute, TakeStepBack, Begun, Lowered, Gained, Staled, Trailed, Accounts, MiddleAccount, LowNoted,
         GainNoted, OpenNoted, Listed, IsNew, Acts, Since, CarrierKeys, Grows;
    MiddleAccounts(a, p, z, r, x);
    MiddleMode(a, p, z, r);
    SettlingSteps(a, Middle(a, p, z, r), z.ev.gate, r, MiddleAccount(a, p, z, r, x));
  }

  lemma MiddleMode(a: Acoustics, p: Params, z: Local, r: Reading)
    requires Sane(z) && Acts(a, p, z.ev, r)
    ensures var mode := z.book.core.mode;
            Middle(a, p, z, r).book.core.mode
            == if !IsNew(a, p, z.ev, r) then mode else if mode == Learning then Provisional
               else Keyed(mode, CarrierKeys(a, p, z, r))
  {
    hide Judged, Louder, GainBegins, CarrierKeys, Summed, IsNew, Acts, Against, Marks, Last, Grows;
    if IsNew(a, p, z.ev, r) {
      JudgedExactly(a, p, z, r);
    }
  }
}
