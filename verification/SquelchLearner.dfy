/** The noise squelch learner: the reference it holds, the steps it takes and undoes, and the gate, window by window.
    Measurements and the tests on spectra are arbitrary functions, so what is proved holds of every signal. */
module SquelchLearner {
  import opened Wrappers
  import ContextCache

  const STEADY_DB := 1.5
  const MIN_BAND_HZ := 1200.0
  const REFUTE_FACTOR := 2.0
  const REFUTE_RUNS: nat := 10
  const REFUTE_MIN: nat := 8
  const REFUTE_MOVING: nat := 2
  const LOWER_HOLD: nat := 20
  const REFUTED_HOLD: nat := 30
  const BACK_HOLD: nat := 40
  const BACK_TRACK := 0.2
  const GAIN_HOLD: nat := 10
  const CONFIRM: nat := 3
  const STALE: nat := 250
  const ALPHA := 0.02
  const CLOSE_HYSTERESIS_DB := 3.0
  const CLOSE_FLOOR_DB := 1.5

  // ---- Signals

  /** Band powers, the voice band's level and its parts' levels: a reference, or a run of windows measured. */
  datatype Ref = Ref(bands: seq<real>, voice: real, parts: seq<real>)

  type Mask = seq<bool>

  /** What is computed from powers: levels, the tests on spectra, the bands taking part, quieting, and a reference moved
      by a step or drawn toward a run. */
  datatype Acoustics = Acoustics(
    total: Ref -> real,
    noiseStep: (Ref, Ref, Option<Mask>) -> Option<real>,
    louder: (Ref, Ref, Option<Mask>, real) -> bool,
    participating: Ref -> Mask,
    usable: Option<Mask> -> real,
    quieting: (Ref, Ref, Option<Mask>) -> real,
    shifted: (Ref, real) -> Ref,
    blended: (Ref, Ref) -> Ref,
    power: real -> real,
    level: real -> real)

  datatype Params = Params(m: int, step: real, gain: real, noBand: int, n: real)

  /** A run of the last m windows: its powers, and whether voice band, band and their difference held steady. */
  datatype Reading = Reading(ref: Ref, vSteady: bool, steady: bool, rSteady: bool)

  datatype Window = Window(key: int, restart: bool, silent: bool, run: Reading, power: Ref)

  function CloseDb(n: real): (r: real)
    ensures r == n - CLOSE_HYSTERESIS_DB || r == CLOSE_FLOOR_DB
    ensures r >= n - CLOSE_HYSTERESIS_DB && r >= CLOSE_FLOOR_DB && (r <= n <==> n >= CLOSE_FLOOR_DB)
  {
    if n - CLOSE_HYSTERESIS_DB >= CLOSE_FLOOR_DB then n - CLOSE_HYSTERESIS_DB else CLOSE_FLOOR_DB
  }

  function Abs(x: real): real {
    if x < 0.0 then -x else x
  }

  // ---- The reference and its history

  datatype Mode = Learning | Provisional | Known | NoBand

  /** The reference before the first held step, and whether a refutation had brought it back. */
  datatype Held = Held(ref: Ref, proven: bool)

  datatype Core = Core(mode: Mode, ref: Option<Ref>, prior: Option<Held>, alt: Option<Ref>, proven: bool)

  const FRESH := Core(Learning, None, None, None, false)

  predicate Judging(c: Core) {
    c.mode == Provisional || c.mode == Known
  }

  /** At most one of the held reference and the refuted step; a refuted step exactly over a proven reference; and a
      reference under either, and while judging. */
  predicate Coherent(c: Core) {
    && (c.prior.Some? || c.alt.Some? || Judging(c) ==> c.ref.Some?)
    && !(c.prior.Some? && c.alt.Some?)
    && (c.alt.Some? <==> c.proven)
  }

  datatype Kind = Replacement | Step | Refutation | TakeBack | Drift

  /** One change of the reference, as a history records it. */
  datatype Entry = Entry(kind: Kind, before: Option<Ref>, after: Option<Ref>)

  datatype Book = Book(core: Core, log: seq<Entry>)

  /** A history only grows, and the reference stands while it does not. */
  ghost predicate Grows(b: Book, after: Book) {
    b.log <= after.log && (after.log == b.log ==> after.core.ref == b.core.ref)
  }

  lemma GrowsOn(b: Book, c: Book, d: Book)
    requires Grows(b, c) && Grows(c, d)
    ensures Grows(b, d)
  {
  }

  function Replaced(b: Book, ref: Ref): (r: Book)
    ensures Coherent(r.core) && r.core.mode == b.core.mode
    ensures Grows(b, r)
  {
    Book(b.core.(ref := Some(ref), prior := None, alt := None, proven := false),
         b.log + [Entry(Replacement, b.core.ref, Some(ref))])
  }

  /** A step down: a step on a held one keeps the reference from before the first. */
  function Stepped(b: Book, ref: Ref): (r: Book)
    requires b.core.ref.Some?
    ensures Coherent(r.core) && r.core.mode == b.core.mode
    ensures Grows(b, r)
  {
    var prior := if b.core.prior.Some? then b.core.prior else Some(Held(b.core.ref.value, b.core.proven));
    Book(b.core.(ref := Some(ref), prior := prior, alt := None, proven := false),
         b.log + [Entry(Step, b.core.ref, Some(ref))])
  }

  /** A held step refuted: the reference before it comes back, the step is kept in case noise takes it back. */
  function Refuted(b: Book): (r: Book)
    requires b.core.prior.Some? && b.core.ref.Some?
    ensures Coherent(r.core) && r.core.mode == b.core.mode
    ensures Grows(b, r)
  {
    var back := Some(b.core.prior.value.ref);
    Book(b.core.(ref := back, prior := None, alt := b.core.ref, proven := true),
         b.log + [Entry(Refutation, b.core.ref, back)])
  }

  /** A refuted step taken back, the reference it replaces held. */
  function TakenBack(b: Book, ref: Ref): (r: Book)
    requires b.core.ref.Some?
    ensures Coherent(r.core) && r.core.mode == b.core.mode
    ensures Grows(b, r)
  {
    Book(b.core.(ref := Some(ref), prior := Some(Held(b.core.ref.value, b.core.proven)), alt := None, proven := false),
         b.log + [Entry(TakeBack, b.core.ref, Some(ref))])
  }

  function Drifted(b: Book, ref: Ref): (r: Book)
    requires Coherent(b.core) && b.core.ref.Some?
    ensures Coherent(r.core) && r.core.mode == b.core.mode
    ensures Grows(b, r)
  {
    Book(b.core.(ref := Some(ref)), b.log + [Entry(Drift, b.core.ref, Some(ref))])
  }

  function InMode(b: Book, mode: Mode): Book {
    b.(core := b.core.(mode := mode))
  }

  // ---- The evidence

  /** Runs counted, those that held, and the sum of their steps. */
  datatype Tally = Tally(n: nat, held: nat, sum: real)

  function Counted(t: Tally, noise: Option<real>, steady: bool): Tally {
    if steady && noise.Some? then Tally(t.n + 1, t.held + 1, t.sum + noise.value) else t.(n := t.n + 1)
  }

  function Mean(t: Tally): real {
    if t.held == 0 then 0.0 else t.sum / t.held as real
  }

  /** Most of the runs held, and they moved down on average. */
  predicate MovedDown(t: Tally) {
    4 * t.held >= 3 * t.n && Mean(t) <= -STEADY_DB
  }

  datatype Voice = Voice(sum: real, n: nat, steady: nat)
  datatype Level = Level(at: real, tally: Tally)
  datatype Open = Open(n: nat, steady: nat)
  datatype Back = Back(n: nat, held: nat, step: real)

  const NO_BACK := Back(0, 0, 0.0)

  /** A steady stretch: its level and voice band, a pending gain step, evidence for a lower level, its time open, and
      the last runs' marks against a held step. */
  datatype Stretch = Stretch(a: real, voice: Voice, atRef: bool, pend: Option<Tally>, lower: Option<Level>, open: Open,
                             refutes: nat, ring: seq<bool>, moving: seq<bool>)

  datatype Evidence = Evidence(stretch: Option<Stretch>, back: Back, run: nat, nb: nat, candA: Option<real>, candN: nat,
                               exitN: nat, gate: bool, part: Option<Mask>)

  /** A restart forgets everything gathered but the bands taking part. */
  function Cleared(part: Option<Mask>): Evidence {
    Evidence(None, NO_BACK, 0, 0, None, 0, 0, false, part)
  }

  function Silenced(e: Evidence): Evidence {
    Evidence(None, NO_BACK, 0, 0, e.candA, 0, 0, false, e.part)
  }

  function PartOf(a: Acoustics, ref: Option<Ref>): Option<Mask> {
    if ref.Some? then Some(a.participating(ref.value)) else None
  }

  // ---- One run against the reference

  /** The learner within a run: noise is the run's step when it has noise's spectrum, speech whether it is clearly
      louder in the voice band. */
  datatype Work = Work(book: Book, stretch: Stretch, back: Back, part: Option<Mask>, noise: Option<real>, speech: bool)

  predicate Fit(w: Work) {
    Coherent(w.book.core) && (w.stretch.pend.Some? ==> w.book.core.ref.Some?)
  }

  function Last(marks: seq<bool>, mark: bool): (r: seq<bool>)
    ensures |r| <= REFUTE_RUNS || |marks| > REFUTE_RUNS
  {
    var all := marks + [mark];
    if |all| > REFUTE_RUNS then all[|all| - REFUTE_RUNS..] else all
  }

  function Marks(marks: seq<bool>): nat {
    if marks == [] then 0 else Marks(marks[..|marks| - 1]) + if marks[|marks| - 1] then 1 else 0
  }

  function Unrefuted(s: Stretch): Stretch {
    s.(ring := [], moving := [])
  }

  /** A stretch at a level not seen before, once confirmed: noise louder than the reference replaces it, a quieter one
      may be a gain step, and a carrier confirms what was learned. Yields whether a gain step is pending. */
  function Judged(a: Acoustics, p: Params, b: Book, stretch: Option<Stretch>, noise: Option<real>, r: Reading)
    : (x: (Book, bool))
    requires Coherent(b.core) && (stretch.Some? ==> stretch.value.voice.n > 0)
    ensures Coherent(x.0.core) && (x.1 ==> x.0.core.ref.Some?)
    ensures Grows(b, x.0)
  {
    var c, sa := b.core, a.total(r.ref);
    if c.mode == Learning then (InMode(Replaced(b, r.ref), Provisional), false)
    else if c.mode == NoBand then (b, false)
    else if stretch.None? then
      (if sa > a.total(c.ref.value) + p.step && (c.prior.None? || noise.Some?) then Replaced(b, r.ref) else b, false)
    else
      var s := stretch.value;
      var da := sa - s.a;
      var dv := r.ref.voice - a.level(s.voice.sum / s.voice.n as real);
      var gainLike := Abs(da - dv) <= p.gain;
      if da > 0.0 && sa >= a.total(c.ref.value) - p.step && (c.prior.None? || noise.Some?) then
        (if !gainLike && c.mode == Provisional then InMode(Replaced(b, r.ref), Known) else Replaced(b, r.ref), false)
      else if da > 0.0 then (b, false)
      else if gainLike && r.vSteady && s.atRef && s.voice.steady * 2 >= s.voice.n then (b, true)
      else (if c.mode == Provisional then InMode(b, Known) else b, false)
  }

  function NewStretch(a: Acoustics, p: Params, ref: Option<Ref>, sa: real, pending: bool): Stretch {
    Stretch(sa, Voice(0.0, 0, 0), ref.Some? && sa >= a.total(ref.value) - p.step,
            if pending then Some(Tally(0, 0, 0.0)) else None, None, Open(0, 0), 0, [], [])
  }

  function Summed(a: Acoustics, s: Stretch, r: Reading): Stretch {
    s.(voice := Voice(s.voice.sum + a.power(r.ref.voice), s.voice.n + 1, s.voice.steady + if r.vSteady then 1 else 0))
  }

  /** Whether this run speaks against the held step. */
  predicate Against(a: Acoustics, w: Work, louder: bool, r: Reading)
    requires w.book.core.prior.Some? && w.book.core.ref.Some?
  {
    || w.speech
    || (w.book.core.prior.value.proven && louder && !r.rSteady)
    || (w.noise.None? && a.total(r.ref) > a.total(w.book.core.ref.value) + STEADY_DB)
  }

  function Refute(a: Acoustics, p: Params, w: Work, louder: bool, r: Reading): (x: Work)
    requires Fit(w)
    ensures Fit(x) && x.stretch.voice == w.stretch.voice
    ensures Grows(w.book, x.book)
  {
    var c, sa := w.book.core, a.total(r.ref);
    if c.prior.Some? && sa > a.total(c.ref.value) - p.n then
      var ring := Last(w.stretch.ring, Against(a, w, louder, r));
      var moving := Last(w.stretch.moving, !r.rSteady);
      if |ring| == REFUTE_RUNS && Marks(ring) >= REFUTE_MIN && Marks(moving) >= REFUTE_MOVING then
        var back := c.prior.value.ref;
        Work(Refuted(w.book),
             Unrefuted(w.stretch).(pend := None, lower := None, refutes := w.stretch.refutes + 1,
                                   atRef := sa >= a.total(back) - p.step),
             NO_BACK, Some(a.participating(back)), None, true)
      else w.(stretch := w.stretch.(ring := ring, moving := moving))
    else w
  }

  /** The evidence for taking the refuted step back, one run on. */
  function Gathered(back: Back, step: Option<real>, r: Reading): Back {
    if step.Some? && r.rSteady then
      Back(back.n + 1, back.held + 1,
           if back.held == 0 then step.value else back.step + BACK_TRACK * (step.value - back.step))
    else back.(n := back.n + 1)
  }

  function TakeStepBack(a: Acoustics, w: Work, r: Reading): (x: Work)
    requires Fit(w)
    ensures Fit(x) && x.stretch.voice == w.stretch.voice
    ensures Grows(w.book, x.book)
  {
    if w.book.core.alt.None? then w
    else
      var alt := w.book.core.alt.value;
      var part := Some(a.participating(alt));
      if a.louder(r.ref, alt, part, REFUTE_FACTOR) then w.(back := NO_BACK)
      else
        var step := a.noiseStep(r.ref, alt, part);
        var back := Gathered(w.back, step, r);
        if back.n >= BACK_HOLD && 4 * back.held >= 3 * back.n then
          var ref := a.shifted(alt, back.step);
          Work(TakenBack(w.book, ref),
               Unrefuted(w.stretch).(pend := None, lower := None, atRef := true, refutes := 0, open := Open(0, 0)),
               NO_BACK, Some(a.participating(ref)),
               if step.Some? then Some(step.value - back.step) else None, false)
        else w.(back := back)
  }

  /** Runs a lower level must hold: longer after each refutation in the stretch. */
  function Hold(refutes: nat): nat {
    if refutes == 0 then LOWER_HOLD
    else if refutes == 1 then REFUTED_HOLD
    else if refutes == 2 then 2 * REFUTED_HOLD
    else if refutes == 3 then 4 * REFUTED_HOLD
    else 8 * REFUTED_HOLD
  }

  /** A step taken on evidence: the reference moves, and nothing gathered against it stands. */
  function StepTaken(a: Acoustics, w: Work, ref: Ref): (x: Work)
    requires Fit(w) && w.book.core.ref.Some?
    ensures Fit(x) && x.stretch.voice == w.stretch.voice
    ensures Grows(w.book, x.book)
  {
    w.(book := Stepped(w.book, ref), stretch := Unrefuted(w.stretch).(atRef := true),
        part := Some(a.participating(ref)))
  }

  function Lowered(a: Acoustics, w: Work, r: Reading): (x: Work)
    requires Fit(w)
    ensures Fit(x) && x.stretch.voice == w.stretch.voice
    ensures Grows(w.book, x.book)
  {
    var c, s, sa := w.book.core, w.stretch, a.total(r.ref);
    if s.pend.Some? then w
    else if s.refutes > 0 && w.speech then w.(stretch := s.(lower := None))
    else if c.ref.Some? && sa < a.total(c.ref.value) - STEADY_DB then
      var moved := s.lower.None? || Abs(sa - s.lower.value.at) > STEADY_DB;
      var start := if moved then Level(sa, Tally(0, 0, 0.0)) else s.lower.value;
      var level := start.(tally := Counted(start.tally, w.noise, r.vSteady));
      if level.tally.n >= Hold(s.refutes) && MovedDown(level.tally) then
        var x := StepTaken(a, w.(stretch := s.(lower := None)), a.shifted(c.ref.value, Mean(level.tally)));
        if c.mode == Provisional then x.(book := InMode(x.book, Known)) else x
      else w.(stretch := s.(lower := Some(level)))
    else w
  }

  function Gained(a: Acoustics, w: Work, r: Reading): (x: Work)
    requires Fit(w)
    ensures Fit(x) && x.stretch.voice == w.stretch.voice
    ensures Grows(w.book, x.book)
  {
    var c, s := w.book.core, w.stretch;
    if s.pend.None? then w
    else
      var tally := Counted(s.pend.value, w.noise, r.vSteady);
      if tally.n < GAIN_HOLD then w.(stretch := s.(pend := Some(tally)))
      else if MovedDown(tally) then
        StepTaken(a, w.(stretch := s.(pend := None, lower := None)), a.shifted(c.ref.value, Mean(tally)))
      else
        var x := w.(stretch := s.(pend := None));
        if c.mode == Provisional then x.(book := InMode(x.book, Known)) else x
  }

  /** Open on one steady stretch too long: a level that dropped, so it becomes the reference, as a held step. */
  function Staled(a: Acoustics, w: Work, gate: bool, r: Reading): (x: Work)
    requires Fit(w)
    ensures Fit(x) && x.stretch.voice == w.stretch.voice
    ensures Grows(w.book, x.book)
  {
    if gate && Judging(w.book.core) then
      var s := w.stretch;
      var open := Open(s.open.n + 1, s.open.steady + if r.vSteady then 1 else 0);
      if open.n >= STALE && 10 * open.steady >= 9 * open.n then
        StepTaken(a, w.(stretch := s.(open := Open(0, 0))), r.ref)
      else w.(stretch := s.(open := open))
    else w
  }

  function Trailed(a: Acoustics, w: Work, r: Reading): (x: Work)
    requires Fit(w)
    ensures Fit(x) && x.stretch.voice == w.stretch.voice
    ensures Grows(w.book, x.book)
  {
    var c, s, sa := w.book.core, w.stretch, a.total(r.ref);
    if Judging(c) && s.pend.None? && (c.prior.None? || w.noise.Some?) && sa >= a.total(c.ref.value) - STEADY_DB then
      var ref := a.blended(c.ref.value, r.ref);
      w.(book := Drifted(w.book, ref), stretch := s.(a := s.a + ALPHA * (sa - s.a)), part := Some(a.participating(ref)))
    else w
  }

  // ---- One window

  /** Everything but the remembered contexts. */
  datatype Local = Local(book: Book, ev: Evidence)

  ghost predicate Sane(l: Local) {
    && Coherent(l.book.core)
    && (l.ev.stretch.Some? ==> l.ev.stretch.value.voice.n > 0
                               && (l.ev.stretch.value.pend.Some? ==> l.book.core.ref.Some?))
  }

  function Thin(a: Acoustics, r: Reading): bool {
    a.usable(Some(a.participating(r.ref))) < MIN_BAND_HZ
  }

  /** Modulation against a refuted step in any run starts the evidence for it over. */
  function Doubted(a: Acoustics, l: Local, r: Reading): (x: Local)
    requires Sane(l)
    ensures Sane(x) && Grows(l.book, x.book) && x.ev.gate == l.ev.gate
  {
    var c := l.book.core;
    if c.alt.Some? && a.louder(r.ref, c.alt.value, Some(a.participating(c.alt.value)), REFUTE_FACTOR)
    then l.(ev := l.ev.(back := NO_BACK)) else l
  }

  /** Evidence that the source has no band, at the reference's level or before one was learned. */
  function Narrowed(a: Acoustics, p: Params, l: Local, r: Reading): (x: Local)
    requires Sane(l)
    ensures Sane(x) && Grows(l.book, x.book) && x.ev.gate == l.ev.gate
  {
    var c := l.book.core;
    var atCeiling := c.ref.None? || a.total(r.ref) >= a.total(c.ref.value) - p.step;
    var nb := if r.vSteady && Thin(a, r) && atCeiling then l.ev.nb + 1 else 0;
    Local(if nb >= p.noBand then InMode(l.book, NoBand) else l.book, l.ev.(nb := nb))
  }

  /** A band shown for long enough ends the no-band state on a new reference. */
  function Widened(a: Acoustics, p: Params, l: Local, r: Reading): (x: Local)
    requires Sane(l)
    ensures Sane(x) && Grows(l.book, x.book) && x.ev.gate == l.ev.gate
  {
    var exitN := if l.book.core.mode == NoBand && r.steady && r.vSteady && !Thin(a, r) then l.ev.exitN + 1 else 0;
    if exitN >= p.noBand then
      Local(InMode(Replaced(l.book, r.ref), Provisional),
            l.ev.(stretch := None, back := NO_BACK, candA := Some(a.total(r.ref)), candN := CONFIRM, exitN := 0))
    else l.(ev := l.ev.(exitN := exitN))
  }

  predicate IsNew(a: Acoustics, p: Params, e: Evidence, r: Reading) {
    r.steady && (e.stretch.None? || Abs(a.total(r.ref) - e.stretch.value.a) >= p.step)
  }

  /** Counting the runs that confirm a new level. */
  function Confirmed(a: Acoustics, p: Params, e: Evidence, r: Reading): Evidence {
    var sa := a.total(r.ref);
    if !IsNew(a, p, e, r) then e.(candA := None, candN := 0)
    else if e.candA.Some? && Abs(sa - e.candA.value) < p.step then e.(candN := e.candN + 1)
    else e.(candA := Some(sa), candN := 1)
  }

  predicate Acts(a: Acoustics, p: Params, e: Evidence, r: Reading) {
    r.steady && !(IsNew(a, p, e, r) && e.candN < CONFIRM)
  }

  /** The run measured against the reference and its stretch begun or continued. */
  function Begun(a: Acoustics, p: Params, l: Local, r: Reading): (x: Work)
    requires Sane(l) && Acts(a, p, l.ev, r)
    ensures Fit(x) && x.stretch.voice.n > 0
    ensures Grows(l.book, x.book)
  {
    var c := l.book.core;
    var noise := if Judging(c) then a.noiseStep(r.ref, c.ref.value, l.ev.part) else None;
    var speech := Judging(c) && a.louder(r.ref, c.ref.value, l.ev.part, REFUTE_FACTOR);
    if IsNew(a, p, l.ev, r) then
      var (book, pending) := Judged(a, p, l.book, l.ev.stretch, noise, r);
      var s := NewStretch(a, p, book.core.ref, a.total(r.ref), pending);
      Work(book, Summed(a, s, r), l.ev.back, PartOf(a, book.core.ref), noise, speech)
    else Work(l.book, Summed(a, l.ev.stretch.value, r), l.ev.back, l.ev.part, noise, speech)
  }

  function Weighed(a: Acoustics, p: Params, w: Work, louder: bool, gate: bool, r: Reading): (x: Work)
    requires Fit(w)
    ensures Fit(x) && x.stretch.voice == w.stretch.voice
    ensures Grows(w.book, x.book)
  {
    Trailed(a, Staled(a, Gained(a, Lowered(a, TakeStepBack(a, Refute(a, p, w, louder, r), r), r), r), gate, r), r)
  }

  function Acted(a: Acoustics, p: Params, l: Local, r: Reading): (x: Local)
    requires Sane(l) && Acts(a, p, l.ev, r)
    ensures Sane(x)
    ensures Grows(l.book, x.book) && x.ev.gate == l.ev.gate
  {
    hide Begun, Weighed, Grows, Acts;
    var c := l.book.core;
    var louder := Judging(c) && a.louder(r.ref, c.ref.value, l.ev.part, 1.0);
    var begun := Begun(a, p, l, r);
    var x := Weighed(a, p, begun, louder, l.ev.gate, r);
    GrowsOn(l.book, begun.book, x.book);
    var e := if IsNew(a, p, l.ev, r) then l.ev.(candA := None, candN := 0) else l.ev;
    Local(x.book, e.(stretch := Some(x.stretch), back := x.back, part := x.part))
  }

  function Measured(a: Acoustics, p: Params, l: Local, r: Reading): (x: Local)
    requires Sane(l)
    ensures Sane(x)
    ensures Grows(l.book, x.book) && x.ev.gate == l.ev.gate
  {
    hide Doubted, Narrowed, Widened, Acted, Grows, Acts, IsNew;
    var d := Doubted(a, l, r);
    var n := Narrowed(a, p, d, r);
    var y := Widened(a, p, n, r);
    GrowsOn(l.book, d.book, n.book);
    GrowsOn(l.book, n.book, y.book);
    var z := y.(ev := Confirmed(a, p, y.ev, r));
    if Acts(a, p, z.ev, r) then
      var x := Acted(a, p, z, r);
      GrowsOn(l.book, z.book, x.book);
      x
    else z
  }

  datatype Out = Out(mode: Mode, gate: bool, q: Option<real>)

  /** The gate opens at n dB of quieting and stays open down to the close threshold; it is shut while learning, and
      open without a band. */
  function Gated(a: Acoustics, p: Params, c: Core, e: Evidence, power: Ref): Out
    requires Coherent(c)
  {
    if Judging(c) then
      if a.usable(e.part) < MIN_BAND_HZ then Out(c.mode, false, None)
      else
        var q := a.quieting(c.ref.value, power, e.part);
        Out(c.mode, if e.gate then q >= CloseDb(p.n) else q >= p.n, Some(q))
    else Out(c.mode, c.mode == NoBand, None)
  }

  function Heard(a: Acoustics, p: Params, l: Local, w: Window): (x: (Local, Out))
    requires Sane(l)
    ensures Sane(x.0) && x.1.mode == x.0.book.core.mode && x.1.gate == x.0.ev.gate
    ensures Grows(l.book, x.0.book)
  {
    if w.silent then (l.(ev := Silenced(l.ev)), Out(l.book.core.mode, false, None))
    else
      var counted := l.(ev := l.ev.(run := l.ev.run + 1));
      var y := if counted.ev.run >= p.m then Measured(a, p, counted, w.run) else counted;
      var out := Gated(a, p, y.book.core, y.ev, w.power);
      (y.(ev := y.ev.(gate := out.gate)), out)
  }

  // ---- Source contexts

  type Op = ContextCache.Op<int, Core>

  /** The learner: the context it is in, what was stored and looked up so far, and each context's history. */
  datatype State = State(key: int, local: Local, ops: seq<Op>, logs: map<int, seq<Entry>>)

  function Remembered(s: State): ContextCache.Lru<int, Core> {
    ContextCache.Run(s.ops)
  }

  /** Leaving a context stores what it learned, if anything. */
  function Left(s: State): State {
    var b := s.local.book;
    if b.core.mode == Learning then s
    else s.(ops := s.ops + [ContextCache.Store(s.key, b.core)], logs := s.logs[s.key := b.log])
  }

  /** A context entered resumes where it was left if it is still remembered, and starts afresh if not. */
  function Entered(a: Acoustics, s: State, key: int): State {
    var found := ContextCache.Lookup(Remembered(s), key);
    var core := if found.Some? then found.value else FRESH;
    var log := if found.Some? && key in s.logs then s.logs[key] else [];
    State(key, Local(Book(core, log), Cleared(PartOf(a, core.ref))), s.ops + [ContextCache.Take(key)], s.logs)
  }

  function Arrived(a: Acoustics, s: State, w: Window): State {
    var t := if w.key != s.key then Entered(a, Left(s), w.key) else s;
    if w.restart then t.(local := t.local.(ev := Cleared(t.local.ev.part))) else t
  }

  ghost predicate WellKept(ops: seq<Op>) {
    forall k :: k in ContextCache.Run(ops).entries ==> Coherent(ContextCache.Run(ops).entries[k])
  }

  ghost predicate Well(s: State) {
    Sane(s.local) && WellKept(s.ops)
  }

  lemma StoredEntries(ops: seq<Op>, op: Op, k: int)
    requires k in ContextCache.Run(ops + [op]).entries
    ensures var now, before := ContextCache.Run(ops + [op]).entries, ContextCache.Run(ops).entries;
            (op.Store? && op.key == k && now[k] == op.value) || (k in before && now[k] == before[k])
  {
    assert (ops + [op])[..|ops|] == ops;
  }

  lemma ExtendedKept(ops: seq<Op>, op: Op)
    requires WellKept(ops) && (op.Store? ==> Coherent(op.value))
    ensures WellKept(ops + [op])
  {
    hide ContextCache.Run, Coherent;
    forall k | k in ContextCache.Run(ops + [op]).entries ensures Coherent(ContextCache.Run(ops + [op]).entries[k]) {
      StoredEntries(ops, op, k);
    }
  }

  lemma ArrivedWell(a: Acoustics, s: State, w: Window)
    requires Well(s)
    ensures Well(Arrived(a, s, w))
  {
    hide ContextCache.Run;
    if w.key != s.key {
      if s.local.book.core.mode != Learning {
        ExtendedKept(s.ops, ContextCache.Store(s.key, s.local.book.core));
      }
      ExtendedKept(Left(s).ops, ContextCache.Take(w.key));
    }
  }

  function Next(a: Acoustics, p: Params, s: State, w: Window): (x: (State, Out))
    requires Well(s)
    ensures Well(x.0)
  {
    ArrivedWell(a, s, w);
    var t := Arrived(a, s, w);
    var (local, out) := Heard(a, p, t.local, w);
    (t.(local := local), out)
  }
}
