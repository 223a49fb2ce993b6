/** The learner as the loop that runs it: its variables updated in place, window by window, against the functions of
    SquelchLearner. */
module SquelchLearnerLoop {
  import opened Wrappers
  import opened SquelchLearner
  import opened SquelchLearnerRuns
  import ContextCache

  class Learner {
    const a: Acoustics
    const p: Params
    const cache: ContextCache.Cache<int, Core>
    var key: int
    var mode: Mode
    var ref: Option<Ref>
    var prior: Option<Held>
    var alt: Option<Ref>
    var proven: bool
    var stretch: Option<Stretch>
    var back: Back
    var part: Option<Mask>
    var run: nat
    var nb: nat
    var candA: Option<real>
    var candN: nat
    var exitN: nat
    var gate: bool
    ghost var log: seq<Entry>
    ghost var logs: map<int, seq<Entry>>
    ghost var ops: seq<Op>

    function Current(): Core
      reads `mode, `ref, `prior, `alt, `proven
    {
      Core(mode, ref, prior, alt, proven)
    }

    ghost function Kept(): Book
      reads `mode, `ref, `prior, `alt, `proven, `log
    {
      Book(Current(), log)
    }

    ghost function Here(): Local
      reads this
    {
      Local(Kept(), Evidence(stretch, back, run, nb, candA, candN, exitN, gate, part))
    }

    ghost function View(): State
      reads this
    {
      State(key, Here(), ops, logs)
    }

    ghost function Weighing(noise: Option<real>, speech: bool): Work
      requires stretch.Some?
      reads `mode, `ref, `prior, `alt, `proven, `log, `stretch, `back, `part
    {
      Work(Kept(), stretch.value, back, part, noise, speech)
    }

    ghost predicate Valid()
      reads this, cache
    {
      cache.Valid() && cache.View() == ContextCache.Run(ops) && Well(View())
    }

    constructor (a: Acoustics, p: Params, seed: Core, key: int)
      requires Seed(seed)
      ensures Valid() && fresh(cache) && this.a == a && this.p == p && View() == Start(a, seed, key)
    {
      this.a, this.p, this.key := a, p, key;
      mode, ref, prior, alt, proven := seed.mode, seed.ref, seed.prior, seed.alt, seed.proven;
      part := PartOf(a, seed.ref);
      stretch, back, run, nb, candA, candN, exitN, gate := None, NO_BACK, 0, 0, None, 0, 0, false;
      log, logs, ops := [], map[], [];
      cache := new ContextCache.Cache();
    }

    // ---- The reference

    method Replace(x: Ref)
      modifies `ref, `prior, `alt, `proven, `log
      ensures Kept() == Replaced(old(Kept()), x)
    {
      log := log + [Entry(Replacement, ref, Some(x))];
      ref, prior, alt, proven := Some(x), None, None, false;
    }

    method StepTo(x: Ref, ghost noise: Option<real>, ghost speech: bool)
      requires stretch.Some? && Fit(Weighing(noise, speech)) && ref.Some?
      modifies `ref, `prior, `alt, `proven, `log, `stretch, `part
      ensures stretch.Some? && Weighing(noise, speech) == StepTaken(a, old(Weighing(noise, speech)), x)
    {
      if prior.None? {
        prior := Some(Held(ref.value, proven));
      }
      log := log + [Entry(Step, ref, Some(x))];
      alt, proven := None, false;
      ref := Some(x);
      stretch := Some(stretch.value.(atRef := true, ring := [], moving := []));
      part := Some(a.participating(x));
    }

    method UndoStep()
      requires prior.Some? && ref.Some?
      modifies `ref, `prior, `alt, `proven, `log
      ensures Kept() == Refuted(old(Kept())) && ref == Some(old(prior).value.ref)
    {
      log := log + [Entry(Refutation, ref, Some(prior.value.ref))];
      alt := ref;
      ref := Some(prior.value.ref);
      prior := None;
      proven := true;
    }

    // ---- One run

    /** The new level's stretch: what it says of the reference, then its first sums. */
    method Renew(noise: Option<real>, r: Reading)
      requires Sane(Here())
      modifies `mode, `ref, `prior, `alt, `proven, `log, `stretch, `part
      ensures var (book, pending) := Judged(a, p, old(Kept()), old(stretch), noise, r);
              && Kept() == book && stretch == Some(NewStretch(a, p, book.core.ref, a.total(r.ref), pending))
              && part == PartOf(a, book.core.ref)
    {
      var sa, pending := a.total(r.ref), false;
      if mode == Learning {
        Replace(r.ref);
        mode := Provisional;
      } else if mode != NoBand {
        if stretch.None? {
          if sa > a.total(ref.value) + p.step && (prior.None? || noise.Some?) {
            Replace(r.ref);
          }
        } else {
          var s := stretch.value;
          var da := sa - s.a;
          var dv := r.ref.voice - a.level(s.voice.sum / s.voice.n as real);
          var gainLike := Abs(da - dv) <= p.gain;
          if da > 0.0 && sa >= a.total(ref.value) - p.step && (prior.None? || noise.Some?) {
            Replace(r.ref);
            if !gainLike && mode == Provisional {
              mode := Known;
            }
          } else if da > 0.0 {
          } else if gainLike && r.vSteady && s.atRef && s.voice.steady * 2 >= s.voice.n {
            pending := true;
          } else if mode == Provisional {
            mode := Known;
          }
        }
      }
      stretch := Some(NewStretch(a, p, ref, sa, pending));
      part := PartOf(a, ref);
    }

    method RefuteStep(r: Reading, louder: bool, noise: Option<real>, speech: bool)
      returns (noise': Option<real>, speech': bool)
      requires stretch.Some? && Fit(Weighing(noise, speech))
      modifies `ref, `prior, `alt, `proven, `log, `stretch, `back, `part
      ensures stretch.Some? && Weighing(noise', speech') == Refute(a, p, old(Weighing(noise, speech)), louder, r)
    {
      hide Last, Marks, Against, Grows, Refuted;
      var sa := a.total(r.ref);
      noise', speech' := noise, speech;
      if prior.Some? && sa > a.total(ref.value) - p.n {
        var against := Speaks(r, louder, noise, speech);
        var s := stretch.value;
        s := s.(ring := Last(s.ring, against), moving := Last(s.moving, !r.rSteady));
        stretch := Some(s);
        if |s.ring| == REFUTE_RUNS && Marks(s.ring) >= REFUTE_MIN && Marks(s.moving) >= REFUTE_MOVING {
          UndoRun(sa);
          noise', speech' := None, true;
        }
      }
    }

    /** The refutation itself: the reference from before comes back and the stretch starts its evidence over. */
    method UndoRun(sa: real)
      requires stretch.Some? && prior.Some? && ref.Some?
      modifies `ref, `prior, `alt, `proven, `log, `stretch, `back, `part
      ensures var x := old(prior).value.ref;
              && Kept() == Refuted(old(Kept())) && back == NO_BACK && part == Some(a.participating(x))
              && stretch == Some(Unrefuted(old(stretch).value).(pend := None, lower := None,
                                 refutes := old(stretch).value.refutes + 1, atRef := sa >= a.total(x) - p.step))
    {
      hide Refuted, Grows;
      UndoStep();
      stretch := Some(stretch.value.(ring := [], moving := [], pend := None, lower := None,
                                     refutes := stretch.value.refutes + 1, atRef := sa >= a.total(ref.value) - p.step));
      back := NO_BACK;
      part := Some(a.participating(ref.value));
    }

    method Speaks(r: Reading, louder: bool, noise: Option<real>, speech: bool) returns (against: bool)
      requires stretch.Some? && prior.Some? && ref.Some?
      ensures against == Against(a, Weighing(noise, speech), louder, r)
    {
      var modulated := prior.value.proven && louder && !r.rSteady;
      against := speech || modulated || (noise.None? && a.total(r.ref) > a.total(ref.value) + STEADY_DB);
    }

    method TakeBackStep(r: Reading, noise: Option<real>, speech: bool) returns (noise': Option<real>, speech': bool)
      requires stretch.Some? && Fit(Weighing(noise, speech))
      modifies `ref, `prior, `alt, `proven, `log, `stretch, `back, `part
      ensures stretch.Some? && Weighing(noise', speech') == TakeStepBack(a, old(Weighing(noise, speech)), r)
    {
      hide Gathered, TakenBack, Grows;
      noise', speech' := noise, speech;
      if alt.Some? {
        var altPart := Some(a.participating(alt.value));
        var step := a.noiseStep(r.ref, alt.value, altPart);
        if a.louder(r.ref, alt.value, altPart, REFUTE_FACTOR) {
          back := NO_BACK;
        } else {
          Gather(step, r);
          if back.n >= BACK_HOLD && 4 * back.held >= 3 * back.n {
            var mean := back.step;
            TakeBackTo(a.shifted(alt.value, mean));
            noise' := if step.Some? then Some(step.value - mean) else None;
            speech' := false;
            back := NO_BACK;
            stretch := Some(stretch.value.(ring := [], moving := [], pend := None, lower := None, atRef := true,
                                           refutes := 0, open := Open(0, 0)));
            part := Some(a.participating(ref.value));
          }
        }
      }
    }

    method Gather(step: Option<real>, r: Reading)
      modifies `back
      ensures back == Gathered(old(back), step, r)
    {
      back := back.(n := back.n + 1);
      if step.Some? && r.rSteady {
        back := back.(held := back.held + 1);
        back := back.(step := if back.held == 1 then step.value else back.step + BACK_TRACK * (step.value - back.step));
      }
    }

    method TakeBackTo(x: Ref)
      requires ref.Some?
      modifies `ref, `prior, `alt, `proven, `log
      ensures Kept() == TakenBack(old(Kept()), x) && ref == Some(x)
    {
      prior := Some(Held(ref.value, proven));
      log := log + [Entry(TakeBack, ref, Some(x))];
      ref := Some(x);
      alt, proven := None, false;
    }

    method Lower(r: Reading, noise: Option<real>, speech: bool)
      requires stretch.Some? && Fit(Weighing(noise, speech))
      modifies `mode, `ref, `prior, `alt, `proven, `log, `stretch, `part
      ensures stretch.Some? && Weighing(noise, speech) == Lowered(a, old(Weighing(noise, speech)), r)
    {
      hide Counted, MovedDown, Mean, Hold;
      var s, sa := stretch.value, a.total(r.ref);
      if s.pend.None? && s.refutes > 0 && speech {
        stretch := Some(s.(lower := None));
      } else if s.pend.None? && ref.Some? && sa < a.total(ref.value) - STEADY_DB {
        var level := Level(sa, Tally(0, 0, 0.0));
        if s.lower.Some? && Abs(sa - s.lower.value.at) <= STEADY_DB {
          level := s.lower.value;
        }
        level := level.(tally := Counted(level.tally, noise, r.vSteady));
        if level.tally.n >= Hold(s.refutes) && MovedDown(level.tally) {
          stretch := Some(s.(lower := None));
          StepTo(a.shifted(ref.value, Mean(level.tally)), noise, speech);
          if mode == Provisional {
            mode := Known;
          }
        } else {
          stretch := Some(s.(lower := Some(level)));
        }
      }
    }

    method TakeGain(r: Reading, noise: Option<real>, ghost speech: bool)
      requires stretch.Some? && Fit(Weighing(noise, speech))
      modifies `mode, `ref, `prior, `alt, `proven, `log, `stretch, `part
      ensures stretch.Some? && Weighing(noise, speech) == Gained(a, old(Weighing(noise, speech)), r)
    {
      hide Counted, MovedDown, Mean;
      var s := stretch.value;
      if s.pend.Some? {
        var tally := Counted(s.pend.value, noise, r.vSteady);
        if tally.n >= GAIN_HOLD {
          stretch := Some(s.(pend := None));
          if MovedDown(tally) {
            stretch := Some(s.(pend := None, lower := None));
            StepTo(a.shifted(ref.value, Mean(tally)), noise, speech);
          } else if mode == Provisional {
            mode := Known;
          }
        } else {
          stretch := Some(s.(pend := Some(tally)));
        }
      }
    }

    method TakeStale(r: Reading, ghost noise: Option<real>, ghost speech: bool)
      requires stretch.Some? && Fit(Weighing(noise, speech))
      modifies `ref, `prior, `alt, `proven, `log, `stretch, `part
      ensures stretch.Some? && Weighing(noise, speech) == Staled(a, old(Weighing(noise, speech)), gate, r)
    {
      hide StepTaken, Grows;
      if gate && (mode == Provisional || mode == Known) {
        var s := stretch.value;
        var open := Open(s.open.n + 1, s.open.steady + if r.vSteady then 1 else 0);
        stretch := Some(s.(open := open));
        if open.n >= STALE && 10 * open.steady >= 9 * open.n {
          stretch := Some(s.(open := Open(0, 0)));
          StepTo(r.ref, noise, speech);
        }
      }
    }

    method Track(r: Reading, noise: Option<real>, ghost speech: bool)
      requires stretch.Some? && Fit(Weighing(noise, speech))
      modifies `ref, `log, `stretch, `part
      ensures stretch.Some? && Weighing(noise, speech) == Trailed(a, old(Weighing(noise, speech)), r)
    {
      var s, sa := stretch.value, a.total(r.ref);
      if (mode == Provisional || mode == Known) && s.pend.None? && (prior.None? || noise.Some?) {
        if sa >= a.total(ref.value) - STEADY_DB {
          var x := a.blended(ref.value, r.ref);
          log := log + [Entry(Drift, ref, Some(x))];
          ref := Some(x);
          stretch := Some(s.(a := s.a + ALPHA * (sa - s.a)));
          part := Some(a.participating(x));
        }
      }
    }

    /** The run measured against the reference, its stretch begun if it is at a new level. */
    method Begin(isNew: bool, r: Reading) returns (noise: Option<real>, speech: bool, louder: bool)
      requires Sane(Here()) && isNew == IsNew(a, p, Here().ev, r) && Acts(a, p, Here().ev, r)
      modifies `mode, `ref, `prior, `alt, `proven, `log, `stretch, `part, `candA, `candN
      ensures stretch.Some? && Weighing(noise, speech) == Begun(a, p, old(Here()), r)
      ensures louder == (Judging(old(Current())) && a.louder(r.ref, old(ref).value, old(part), 1.0))
      ensures candA == (if isNew then None else old(candA)) && candN == if isNew then 0 else old(candN)
    {
      hide Judged, Summed, NewStretch, Grows;
      noise, speech, louder := None, false, false;
      if mode == Provisional || mode == Known {
        noise := a.noiseStep(r.ref, ref.value, part);
        speech := a.louder(r.ref, ref.value, part, REFUTE_FACTOR);
        louder := a.louder(r.ref, ref.value, part, 1.0);
      }
      if isNew {
        candA, candN := None, 0;
        Renew(noise, r);
      }
      stretch := Some(Summed(a, stretch.value, r));
    }

    method Weigh(r: Reading, louder: bool, n: Option<real>, s: bool) returns (noise: Option<real>, speech: bool)
      requires stretch.Some? && Fit(Weighing(n, s))
      modifies `mode, `ref, `prior, `alt, `proven, `log, `stretch, `back, `part
      ensures stretch.Some? && Weighing(noise, speech) == Weighed(a, p, old(Weighing(n, s)), louder, gate, r)
    {
      hide Refute, TakeStepBack, Lowered, Gained, Staled, Trailed, Fit, Grows;
      noise, speech := RefuteStep(r, louder, n, s);
      noise, speech := TakeBackStep(r, noise, speech);
      Lower(r, noise, speech);
      TakeGain(r, noise, speech);
      TakeStale(r, noise, speech);
      Track(r, noise, speech);
    }

    /** A run steady at the stretch's level, or at a new one confirmed. */
    method Act(isNew: bool, r: Reading)
      requires Sane(Here()) && isNew == IsNew(a, p, Here().ev, r) && Acts(a, p, Here().ev, r)
      modifies `mode, `ref, `prior, `alt, `proven, `log, `stretch, `back, `part, `candA, `candN
      ensures Here() == Acted(a, p, old(Here()), r)
    {
      hide Begun, Weighed, IsNew, Grows, Fit;
      var noise, speech, louder := Begin(isNew, r);
      noise, speech := Weigh(r, louder, noise, speech);
    }

    method Doubt(r: Reading)
      requires Sane(Here())
      modifies `back
      ensures Here() == Doubted(a, old(Here()), r)
    {
      if alt.Some? && a.louder(r.ref, alt.value, Some(a.participating(alt.value)), REFUTE_FACTOR) {
        back := NO_BACK;
      }
    }

    method Narrow(r: Reading, thin: bool)
      requires Sane(Here()) && thin == Thin(a, r)
      modifies `mode, `nb
      ensures Here() == Narrowed(a, p, old(Here()), r)
    {
      hide Thin, Grows;
      var atCeiling := ref.None? || a.total(r.ref) >= a.total(ref.value) - p.step;
      nb := if r.vSteady && thin && atCeiling then nb + 1 else 0;
      if nb >= p.noBand {
        mode := NoBand;
      }
    }

    method Widen(r: Reading, thin: bool)
      requires Sane(Here()) && thin == Thin(a, r)
      modifies `mode, `ref, `prior, `alt, `proven, `log, `stretch, `back, `candA, `candN, `exitN
      ensures Here() == Widened(a, p, old(Here()), r)
    {
      hide Thin, Grows, Replaced, Sane;
      exitN := if mode == NoBand && r.steady && r.vSteady && !thin then exitN + 1 else 0;
      if exitN >= p.noBand {
        Relearn(r);
      }
    }

    method Relearn(r: Reading)
      modifies `mode, `ref, `prior, `alt, `proven, `log, `stretch, `back, `candA, `candN, `exitN
      ensures Kept() == InMode(Replaced(old(Kept()), r.ref), Provisional)
      ensures stretch == None && back == NO_BACK && candA == Some(a.total(r.ref)) && candN == CONFIRM && exitN == 0
    {
      Replace(r.ref);
      mode := Provisional;
      stretch, back := None, NO_BACK;
      candA, candN, exitN := Some(a.total(r.ref)), CONFIRM, 0;
    }

    method Confirm(r: Reading) returns (isNew: bool)
      modifies `candA, `candN
      ensures isNew == IsNew(a, p, old(Here()).ev, r)
              && Here() == old(Here()).(ev := Confirmed(a, p, old(Here()).ev, r))
    {
      var sa := a.total(r.ref);
      isNew := r.steady && (stretch.None? || Abs(sa - stretch.value.a) >= p.step);
      if isNew {
        if candA.Some? && Abs(sa - candA.value) < p.step {
          candN := candN + 1;
        } else {
          candA, candN := Some(sa), 1;
        }
      } else {
        candA, candN := None, 0;
      }
    }

    method Measure(r: Reading)
      requires Sane(Here())
      modifies `mode, `ref, `prior, `alt, `proven, `log, `stretch, `back, `part, `nb, `candA, `candN, `exitN
      ensures Here() == Measured(a, p, old(Here()), r)
    {
      hide Doubted, Narrowed, Widened, Acted, Grows, Thin;
      var thin := Thin(a, r);
      Doubt(r);
      Narrow(r, thin);
      Widen(r, thin);
      var isNew := Confirm(r);
      if r.steady && !(isNew && candN < CONFIRM) {
        Act(isNew, r);
      }
    }

    // ---- One window

    method Forget()
      modifies `stretch, `back, `run, `nb, `candA, `candN, `exitN, `gate
      ensures Here() == old(Here()).(ev := Cleared(part))
    {
      stretch, run, nb, gate := None, 0, 0, false;
      back := NO_BACK;
      candA, candN, exitN := None, 0, 0;
    }

    /** Store what the context left has learned. */
    method Leave()
      requires Valid()
      modifies `logs, `ops, cache
      ensures Valid() && View() == Left(old(View()))
    {
      hide ContextCache.Stored, ContextCache.Run, Coherent;
      if mode != Learning {
        cache.Store(key, Current());
        ghost var op := ContextCache.Store(key, Current());
        ExtendedKept(ops, op);
        StoredRun(ops, op);
        ops := ops + [op];
        logs := logs[key := log];
      }
    }

    /** Take what is remembered of the context entered. */
    method Enter(k: int)
      requires Valid()
      modifies this, cache
      ensures Valid() && View() == Entered(a, old(View()), k)
    {
      hide ContextCache.Taken, ContextCache.Run, Coherent, WellKept;
      FoundCoherent(ops, k);
      var found := cache.Take(k);
      ghost var op := ContextCache.Take(k);
      ExtendedKept(ops, op);
      StoredRun(ops, op);
      var core := if found.Some? then found.value else FRESH;
      Load(core, if found.Some? && k in logs then logs[k] else []);
      ops := ops + [op];
      key := k;
    }

    method Load(core: Core, ghost history: seq<Entry>)
      modifies `mode, `ref, `prior, `alt, `proven, `log, `part, `stretch, `back, `run, `nb, `candA, `candN, `exitN,
          `gate
      ensures Here() == Local(Book(core, history), Cleared(PartOf(a, core.ref)))
    {
      log := history;
      mode, ref, prior, alt, proven := core.mode, core.ref, core.prior, core.alt, core.proven;
      part := PartOf(a, ref);
      Forget();
    }

    /** The gate, from the reference and the bands taking part. */
    method Decide(power: Ref) returns (out: Out)
      requires Coherent(Current())
      modifies `gate
      ensures out == Gated(a, p, Current(), old(Here()).ev, power) && gate == out.gate
    {
      hide CloseDb;
      if mode == Provisional || mode == Known {
        if a.usable(part) < MIN_BAND_HZ {
          gate := false;
          out := Out(mode, gate, None);
        } else {
          var q := a.quieting(ref.value, power, part);
          if gate {
            gate := q >= CloseDb(p.n);
          } else {
            gate := q >= p.n;
          }
          out := Out(mode, gate, Some(q));
        }
      } else {
        gate := mode == NoBand;
        out := Out(mode, gate, None);
      }
    }

    method HearHere(w: Window) returns (out: Out)
      requires Sane(Here())
      modifies `mode, `ref, `prior, `alt, `proven, `log, `stretch, `back, `part, `run, `nb, `candA, `candN, `exitN,
          `gate
      ensures (Here(), out) == Heard(a, p, old(Here()), w)
    {
      hide Measured, Grows, Gated;
      if w.silent {
        run, nb, gate := 0, 0, false;
        candN, exitN := 0, 0;
        stretch := None;
        back := NO_BACK;
        return Out(mode, false, None);
      }
      run := run + 1;
      if run >= p.m {
        Measure(w.run);
      }
      out := Decide(w.power);
    }

    /** One window: the mode it leaves, whether the gate is open, and its quieting where a reference judges it. */
    method Hear(w: Window) returns (out: Out)
      requires Valid()
      modifies this, cache
      ensures Valid() && (View(), out) == Next(a, p, old(View()), w)
    {
      hide ContextCache.Run, Left, Entered, Heard, WellKept, Sane;
      ArrivedWell(a, View(), w);
      if w.key != key {
        Leave();
        Enter(w.key);
      }
      if w.restart {
        Forget();
      }
      out := HearHere(w);
    }
  }

  lemma FoundCoherent(ops: seq<Op>, k: int)
    requires WellKept(ops)
    ensures Coherent(FRESH)
    ensures var found := ContextCache.Lookup(ContextCache.Run(ops), k); found.Some? ==> Coherent(found.value)
  {
  }

  lemma StoredRun(ops: seq<Op>, op: Op)
    ensures op.Store? ==> ContextCache.Run(ops + [op]) == ContextCache.Stored(ContextCache.Run(ops), op.key, op.value)
    ensures op.Take? ==> ContextCache.Run(ops + [op]) == ContextCache.Taken(ContextCache.Run(ops), op.key)
  {
    assert (ops + [op])[..|ops|] == ops;
  }

  /** run_learner: the windows in order, each one's mode, gate and quieting, and what is learned at the end. */
  method RunLearner(a: Acoustics, p: Params, seed: Core, key: int, ws: seq<Window>)
    returns (outs: seq<Out>, final: Core)
    requires Seed(seed)
    ensures outs == Outs(a, p, seed, key, ws) && final == Run(a, p, seed, key, ws).local.book.core
  {
    hide Next, Start;
    var learner := new Learner(a, p, seed, key);
    outs := [];
    var i := 0;
    StartRun(a, p, seed, key);
    while i < |ws|
      invariant 0 <= i <= |ws| && learner.a == a && learner.p == p && fresh(learner) && fresh(learner.cache)
      invariant learner.Valid() && learner.View() == Run(a, p, seed, key, ws[..i])
      invariant outs == Outs(a, p, seed, key, ws[..i])
    {
      var out := learner.Hear(ws[i]);
      outs := outs + [out];
      i := i + 1;
      assert ws[..i][..i - 1] == ws[..i - 1];
    }
    assert ws[..i] == ws;
    final := learner.Current();
  }

  lemma StartRun(a: Acoustics, p: Params, seed: Core, key: int)
    requires Seed(seed)
    ensures Run(a, p, seed, key, []) == Start(a, seed, key) && Outs(a, p, seed, key, []) == []
  {
  }
}
