/** Whole runs of the noise squelch learner: what its references, modes, gate and remembered contexts keep, for every
    sequence of windows and every signal. */
module SquelchLearnerRuns {
  import opened Wrappers
  import opened SquelchLearner
  import opened SquelchLearnerHistory
  import ContextCache

  /** What a run may be seeded with: a mode and a reference, and no step held or undone. */
  predicate Seed(c: Core) {
    Coherent(c) && c.prior.None? && c.alt.None?
  }

  function Start(a: Acoustics, seed: Core, key: int): (s: State)
    requires Seed(seed)
    ensures Well(s)
  {
    State(key, Local(Book(seed, []), Cleared(PartOf(a, seed.ref))), [], map[])
  }

  function Run(a: Acoustics, p: Params, seed: Core, key: int, ws: seq<Window>): (s: State)
    requires Seed(seed)
    ensures Well(s)
  {
    if ws == [] then Start(a, seed, key)
    else Next(a, p, Run(a, p, seed, key, ws[..|ws| - 1]), ws[|ws| - 1]).0
  }

  function Outs(a: Acoustics, p: Params, seed: Core, key: int, ws: seq<Window>): (outs: seq<Out>)
    requires Seed(seed)
    ensures |outs| == |ws|
  {
    if ws == [] then []
    else
      var before, w := ws[..|ws| - 1], ws[|ws| - 1];
      Outs(a, p, seed, key, before) + [Next(a, p, Run(a, p, seed, key, before), w).1]
  }

  // ---- What a refutation restores

  ghost predicate SoundState(s: State) {
    Sound(s.local.book) && SoundKept(s.ops, s.logs)
  }

  ghost predicate SoundKept(ops: seq<Op>, logs: map<int, seq<Entry>>) {
    forall k :: k in ContextCache.Run(ops).entries ==>
      k in logs && Sound(Book(ContextCache.Run(ops).entries[k], logs[k]))
  }

  lemma LeftSound(s: State)
    requires SoundState(s)
    ensures SoundState(Left(s))
  {
    hide Sound, ContextCache.Run;
    var t := Left(s);
    if s.local.book.core.mode != Learning {
      var op := ContextCache.Store(s.key, s.local.book.core);
      var now := ContextCache.Run(s.ops + [op]).entries;
      forall k | k in now ensures k in t.logs && Sound(Book(now[k], t.logs[k])) {
        StoredEntries(s.ops, op, k);
        if k == s.key {
          StoredLast(s.ops, k, s.local.book.core);
        }
      }
    }
  }

  lemma StoredLast(ops: seq<Op>, k: int, c: Core)
    requires k in ContextCache.Run(ops + [ContextCache.Store(k, c)]).entries
    ensures ContextCache.Run(ops + [ContextCache.Store(k, c)]).entries[k] == c
  {
    assert (ops + [ContextCache.Store(k, c)])[..|ops|] == ops;
  }

  lemma EnteredSound(a: Acoustics, s: State, key: int)
    requires SoundState(s)
    ensures SoundState(Entered(a, s, key))
  {
    hide Sound, ContextCache.Run;
    var op := ContextCache.Take(key);
    var now := ContextCache.Run(s.ops + [op]).entries;
    forall k | k in now ensures k in s.logs && Sound(Book(now[k], s.logs[k])) {
      StoredEntries(s.ops, op, k);
    }
    SeedSound(FRESH);
  }

  lemma SeedSound(c: Core)
    ensures c.prior.None? && c.alt.None? ==> Sound(Book(c, []))
  {
  }

  lemma NextSound(a: Acoustics, p: Params, s: State, w: Window)
    requires Well(s) && SoundState(s)
    ensures SoundState(Next(a, p, s, w).0)
  {
    hide Sound, SoundKept, Measured, Left, Entered;
    if w.key != s.key {
      LeftSound(s);
      EnteredSound(a, Left(s), w.key);
    }
    ArrivedWell(a, s, w);
    var t := Arrived(a, s, w);
    var l := t.local.(ev := t.local.ev.(run := t.local.ev.run + 1));
    MeasuredSound(a, p, l, w.run);
  }

  lemma {:induction false} RunSound(a: Acoustics, p: Params, seed: Core, key: int, ws: seq<Window>)
    requires Seed(seed)
    ensures SoundState(Run(a, p, seed, key, ws))
    decreases |ws|
  {
    if ws == [] {
      SeedSound(seed);
    } else {
      RunSound(a, p, seed, key, ws[..|ws| - 1]);
      NextSound(a, p, Run(a, p, seed, key, ws[..|ws| - 1]), ws[|ws| - 1]);
    }
  }

  /** Refutation r of a history brings back the reference in force before the first of the steps then held. */
  ghost predicate BringsBack(log: seq<Entry>, r: nat)
    requires r < |log|
  {
    && (exists i :: HeldSince(log[..r], i))
    && (forall i :: HeldSince(log[..r], i) ==> log[r].after == log[i].before)
  }

  /** In every reachable state the history accounts for the reference, at most one of the held reference and the refuted
      step is kept, the latter exactly over a proven reference, and every refutation restored the reference in force
      before the first step held since the last replacement, refutation or take-back. */
  lemma RefutationRestores(a: Acoustics, p: Params, seed: Core, key: int, ws: seq<Window>)
    requires Seed(seed)
    ensures var b := Run(a, p, seed, key, ws).local.book;
            && Coherent(b.core) && Chained(b.log)
            && (b.log != [] ==> b.log[|b.log| - 1].after == b.core.ref)
            && (b.core.prior.Some? <==> Standing(b.log))
            && forall r :: 0 <= r < |b.log| && b.log[r].kind == Refutation ==> BringsBack(b.log, r)
  {
    hide Run, Opening, Standing, HeldSince;
    RunSound(a, p, seed, key, ws);
    var b := Run(a, p, seed, key, ws).local.book;
    StandingIsOpening(b.log);
    forall r | 0 <= r < |b.log| && b.log[r].kind == Refutation ensures BringsBack(b.log, r) {
      SoundBringsBack(b.log, r);
    }
  }

  lemma SoundBringsBack(log: seq<Entry>, r: nat)
    requires r < |log| && log[r].kind == Refutation && Restores(log)
    ensures BringsBack(log, r)
  {
    hide Opening, HeldSince;
    assert Restored(log, r);
    forall i: nat | i < r ensures HeldSince(log[..r], i) <==> Opening(log[..r]) == Some(i) {
      OpeningIsFirst(log[..r], i);
    }
    assert HeldSince(log[..r], Opening(log[..r]).value);
    forall i ensures HeldSince(log[..r], i) ==> 0 <= i < r {
      HeldSinceRange(log[..r], i);
    }
  }

  lemma HeldSinceRange(log: seq<Entry>, i: int)
    ensures HeldSince(log, i) ==> 0 <= i < |log|
  {
  }

  /** The same of every context remembered, so a step taken before a context was left is undone the same after. */
  lemma RefutationRestoresAcrossContexts(a: Acoustics, p: Params, seed: Core, key: int, ws: seq<Window>, k: int)
    requires Seed(seed)
    ensures var s := Run(a, p, seed, key, ws);
            k in Remembered(s).entries ==>
              && k in s.logs
              && (Remembered(s).entries[k].prior.Some? <==> Standing(s.logs[k]))
              && forall r :: 0 <= r < |s.logs[k]| && s.logs[k][r].kind == Refutation ==> BringsBack(s.logs[k], r)
  {
    hide Run, ContextCache.Run, Opening, Standing, HeldSince;
    RunSound(a, p, seed, key, ws);
    var s := Run(a, p, seed, key, ws);
    if k in Remembered(s).entries {
      var log := s.logs[k];
      assert Sound(Book(Remembered(s).entries[k], log));
      StandingIsOpening(log);
      forall r | 0 <= r < |log| && log[r].kind == Refutation ensures BringsBack(log, r) {
        SoundBringsBack(log, r);
      }
    }
  }

  /** Every change of the reference within a context is recorded: a window only adds to the history, and where it adds
      nothing the reference is the same. */
  lemma HistoryIsComplete(a: Acoustics, p: Params, seed: Core, key: int, ws: seq<Window>, w: Window)
    requires Seed(seed) && Run(a, p, seed, key, ws).key == w.key
    ensures var before, after := Run(a, p, seed, key, ws).local.book, Run(a, p, seed, key, ws + [w]).local.book;
            before.log <= after.log && (after.core.ref != before.core.ref ==> before.log < after.log)
  {
    hide Next, Run;
    RunNext(a, p, seed, key, ws, w);
    NextExtends(a, p, Run(a, p, seed, key, ws), w);
  }

  lemma RunNext(a: Acoustics, p: Params, seed: Core, key: int, ws: seq<Window>, w: Window)
    requires Seed(seed)
    ensures Run(a, p, seed, key, ws + [w]) == Next(a, p, Run(a, p, seed, key, ws), w).0
  {
    hide Next;
    assert (ws + [w])[..|ws|] == ws;
  }

  lemma NextExtends(a: Acoustics, p: Params, s: State, w: Window)
    requires Well(s) && w.key == s.key
    ensures Grows(s.local.book, Next(a, p, s, w).0.local.book)
  {
    hide Measured;
  }

  // ---- The modes

  /** What one window may do to the mode. */
  predicate Edge(m: Mode, n: Mode) {
    || m == n
    || (m == Learning && (n == Provisional || n == NoBand))
    || (m == Provisional && (n == Known || n == NoBand))
    || (m == Known && n == NoBand)
    || (m == NoBand && n == Provisional)
  }

  lemma WeighedMode(a: Acoustics, p: Params, w: Work, louder: bool, gate: bool, r: Reading)
    requires Fit(w)
    ensures var m := Weighed(a, p, w, louder, gate, r).book.core.mode;
            m == w.book.core.mode || (w.book.core.mode == Provisional && m == Known)
    ensures w.stretch.pend.None? && w.stretch.lower.None? ==>
              Weighed(a, p, w, louder, gate, r).book.core.mode == w.book.core.mode
  {
    hide Refute, TakeStepBack, Lowered, Gained, Staled, Trailed;
    RefuteMode(a, p, w, louder, r);
    var x1 := Refute(a, p, w, louder, r);
    TakeStepBackMode(a, x1, r);
    var x2 := TakeStepBack(a, x1, r);
    LoweredMode(a, x2, r);
    var x3 := Lowered(a, x2, r);
    GainedMode(a, x3, r);
    var x4 := Gained(a, x3, r);
    StaledMode(a, x4, gate, r);
    TrailedMode(a, Staled(a, x4, gate, r), r);
  }

  /** Nothing is pending and nothing gathered for a lower level. */
  predicate Unpressed(s: Stretch) {
    s.pend.None? && s.lower.None?
  }

  lemma RefuteMode(a: Acoustics, p: Params, w: Work, louder: bool, r: Reading)
    requires Fit(w)
    ensures var x := Refute(a, p, w, louder, r);
            x.book.core.mode == w.book.core.mode && (Unpressed(w.stretch) ==> Unpressed(x.stretch))
  {
    hide Against, Marks, Last;
  }

  lemma TakeStepBackMode(a: Acoustics, w: Work, r: Reading)
    requires Fit(w)
    ensures var x := TakeStepBack(a, w, r);
            x.book.core.mode == w.book.core.mode && (Unpressed(w.stretch) ==> Unpressed(x.stretch))
  {
  }

  /** One run of evidence is never a step. */
  lemma LoweredMode(a: Acoustics, w: Work, r: Reading)
    requires Fit(w)
    ensures var m, x := w.book.core.mode, Lowered(a, w, r);
            && (x.book.core.mode == m || (m == Provisional && x.book.core.mode == Known))
            && (Unpressed(w.stretch) ==> x.book.core.mode == m && x.stretch.pend.None?)
  {
    hide MovedDown, Mean;
  }

  lemma GainedMode(a: Acoustics, w: Work, r: Reading)
    requires Fit(w)
    ensures var m, x := w.book.core.mode, Gained(a, w, r);
            && (x.book.core.mode == m || (m == Provisional && x.book.core.mode == Known))
            && (w.stretch.pend.None? ==> x.book.core.mode == m)
  {
    hide MovedDown, Mean, Counted;
  }

  lemma StaledMode(a: Acoustics, w: Work, gate: bool, r: Reading)
    requires Fit(w)
    ensures Staled(a, w, gate, r).book.core.mode == w.book.core.mode
  {
  }

  lemma TrailedMode(a: Acoustics, w: Work, r: Reading)
    requires Fit(w)
    ensures Trailed(a, w, r).book.core.mode == w.book.core.mode
  {
  }

  lemma ActedMode(a: Acoustics, p: Params, l: Local, r: Reading)
    requires Sane(l) && Acts(a, p, l.ev, r)
    ensures var m, n := l.book.core.mode, Acted(a, p, l, r).book.core.mode;
            && (m == NoBand ==> n == m)
            && (m == Learning ==> n == Provisional || n == m)
            && (m == Provisional ==> n == m || n == Known)
            && (m == Known ==> n == m)
            && (m == Provisional && l.ev.stretch.None? ==> n == m)
  {
    hide Weighed, Replaced, Grows;
    var c := l.book.core;
    var louder := Judging(c) && a.louder(r.ref, c.ref.value, l.ev.part, 1.0);
    WeighedMode(a, p, Begun(a, p, l, r), louder, l.ev.gate, r);
  }

  lemma MeasuredMode(a: Acoustics, p: Params, l: Local, r: Reading)
    requires Sane(l)
    ensures p.noBand >= 1 ==> Edge(l.book.core.mode, Measured(a, p, l, r).book.core.mode)
    ensures l.book.core.mode != Learning ==> Measured(a, p, l, r).book.core.mode != Learning
  {
    hide Acted, Replaced, Grows, Thin, IsNew;
    var d := Doubted(a, l, r);
    var y := Narrowed(a, p, d, r);
    var u := Widened(a, p, y, r);
    var z := u.(ev := Confirmed(a, p, u.ev, r));
    if Acts(a, p, z.ev, r) {
      ActedMode(a, p, z, r);
    }
  }

  /** Within a context learning is never resumed, what is provisional came from learning or from no band, and what is
      known was provisional; a reference exists whenever either judges. */
  lemma ModeGraph(a: Acoustics, p: Params, s: State, w: Window)
    requires Well(s) && w.key == s.key
    ensures var m, c := s.local.book.core.mode, Next(a, p, s, w).0.local.book.core;
            && (p.noBand >= 1 ==> Edge(m, c.mode))
            && (m != Learning ==> c.mode != Learning)
            && (Judging(c) ==> c.ref.Some?)
  {
    hide Measured;
    var t := Arrived(a, s, w);
    var l := t.local.(ev := t.local.ev.(run := t.local.ev.run + 1));
    MeasuredMode(a, p, l, w.run);
  }

  // ---- The gate

  /** No band, or at least db of quieting under a usable reference. */
  predicate Quiet(out: Out, db: real) {
    out.mode == NoBand || (out.q.Some? && out.q.value >= db)
  }

  /** A restart or a change of context comes before window i. */
  predicate Cut(key: int, ws: seq<Window>, i: nat)
    requires i < |ws|
  {
    ws[i].restart || ws[i].key != if i == 0 then key else ws[i - 1].key
  }

  /** Window i keeps an open gate open. */
  predicate Sustains(p: Params, key: int, ws: seq<Window>, outs: seq<Out>, i: nat)
    requires i < |ws| == |outs|
  {
    !Cut(key, ws, i) && !ws[i].silent && Quiet(outs[i], CloseDb(p.n))
  }

  /** Window j opens the gate and every one since keeps it open. */
  ghost predicate OpenSince(p: Params, key: int, ws: seq<Window>, outs: seq<Out>, j: nat)
    requires |ws| == |outs|
  {
    && j < |ws| && !ws[j].silent && Quiet(outs[j], p.n)
    && forall k: nat :: j < k < |ws| ==> Sustains(p, key, ws, outs, k)
  }

  lemma GateNext(a: Acoustics, p: Params, s: State, w: Window)
    requires Well(s)
    ensures var (t, out) := Next(a, p, s, w);
            && t.key == w.key && t.local.ev.gate == out.gate
            && var held := s.local.ev.gate && w.key == s.key && !w.restart;
               out.gate <==> !w.silent && Quiet(out, if held then CloseDb(p.n) else p.n)
  {
    hide Measured, Grows, CloseDb, Left;
  }

  lemma {:induction false} OutsPrefix(a: Acoustics, p: Params, seed: Core, key: int, ws: seq<Window>)
    requires Seed(seed) && ws != []
    ensures var n := |ws| - 1;
            && Outs(a, p, seed, key, ws)[..n] == Outs(a, p, seed, key, ws[..n])
            && Outs(a, p, seed, key, ws)[n] == Next(a, p, Run(a, p, seed, key, ws[..n]), ws[n]).1
            && Run(a, p, seed, key, ws) == Next(a, p, Run(a, p, seed, key, ws[..n]), ws[n]).0
  {
    hide Next;
  }

  lemma {:induction false} OpenSinceGrows(p: Params, key: int, ws: seq<Window>, outs: seq<Out>, j: nat)
    requires |ws| == |outs| && ws != []
    ensures var n := |ws| - 1;
            OpenSince(p, key, ws, outs, j) <==>
              if j < n then OpenSince(p, key, ws[..n], outs[..n], j) && Sustains(p, key, ws, outs, n)
              else j == n && !ws[n].silent && Quiet(outs[n], p.n)
  {
    hide Quiet, CloseDb;
    var n := |ws| - 1;
    if j < n {
      forall k: nat | j < k < n ensures Sustains(p, key, ws[..n], outs[..n], k) == Sustains(p, key, ws, outs, k) {
        assert ws[..n][k] == ws[k] && ws[..n][k - 1] == ws[k - 1] && outs[..n][k] == outs[k];
      }
      if OpenSince(p, key, ws, outs, j) {
        assert Sustains(p, key, ws, outs, n);
      }
    }
  }

  lemma {:induction false} RunKey(a: Acoustics, p: Params, seed: Core, key: int, ws: seq<Window>)
    requires Seed(seed)
    ensures Run(a, p, seed, key, ws).key == if ws == [] then key else ws[|ws| - 1].key
  {
    if ws != [] {
      GateNext(a, p, Run(a, p, seed, key, ws[..|ws| - 1]), ws[|ws| - 1]);
    }
  }

  /** The gate is open only by a window of n dB of quieting, or without a band, since which no window was silent,
      restarted or of another context and each kept the close threshold; and, the close threshold being no higher than
      n, whenever there is one. */
  lemma {:induction false} GateTracesBack(a: Acoustics, p: Params, seed: Core, key: int, ws: seq<Window>)
    requires Seed(seed) && ws != []
    ensures var outs := Outs(a, p, seed, key, ws);
            && (outs[|ws| - 1].gate ==> exists j: nat :: OpenSince(p, key, ws, outs, j))
            && (p.n >= CLOSE_FLOOR_DB && (exists j: nat :: OpenSince(p, key, ws, outs, j)) ==> outs[|ws| - 1].gate)
            && Run(a, p, seed, key, ws).local.ev.gate == outs[|ws| - 1].gate
    decreases |ws|
  {
    hide Next, Run, Outs, OpenSince;
    var n := |ws| - 1;
    var before := ws[..n];
    var s, outs := Run(a, p, seed, key, before), Outs(a, p, seed, key, ws);
    OutsPrefix(a, p, seed, key, ws);
    GateNext(a, p, s, ws[n]);
    RunKey(a, p, seed, key, before);
    if n > 0 {
      GateTracesBack(a, p, seed, key, before);
    } else {
      StartShut(a, p, seed, key);
      assert before == [] && outs[..n] == [];
    }
    GateFromBefore(p, key, ws, outs, s.local.ev.gate);
  }

  lemma StartShut(a: Acoustics, p: Params, seed: Core, key: int)
    requires Seed(seed)
    ensures !Run(a, p, seed, key, []).local.ev.gate
    ensures forall j: nat :: !OpenSince(p, key, [], [], j)
  {
  }

  lemma GateFromBefore(p: Params, key: int, ws: seq<Window>, outs: seq<Out>, was: bool)
    requires |ws| == |outs| && ws != []
    requires var n := |ws| - 1;
             && (was ==> exists j: nat :: OpenSince(p, key, ws[..n], outs[..n], j))
             && (p.n >= CLOSE_FLOOR_DB && (exists j: nat :: OpenSince(p, key, ws[..n], outs[..n], j)) ==> was)
             && (outs[n].gate <==>
                  !ws[n].silent && Quiet(outs[n], if was && !Cut(key, ws, n) then CloseDb(p.n) else p.n))
    ensures outs[|ws| - 1].gate ==> exists j: nat :: OpenSince(p, key, ws, outs, j)
    ensures p.n >= CLOSE_FLOOR_DB && (exists j: nat :: OpenSince(p, key, ws, outs, j)) ==> outs[|ws| - 1].gate
  {
    hide OpenSince, Cut;
    var n := |ws| - 1;
    OpenSinceGrows(p, key, ws, outs, n);
    if outs[n].gate && was && !Cut(key, ws, n) {
      var j: nat :| OpenSince(p, key, ws[..n], outs[..n], j);
      OpenSinceWithin(p, key, ws[..n], outs[..n], j);
      OpenSinceGrows(p, key, ws, outs, j);
    }
    if p.n >= CLOSE_FLOOR_DB && exists j: nat :: OpenSince(p, key, ws, outs, j) {
      var j: nat :| OpenSince(p, key, ws, outs, j);
      OpenSinceGrows(p, key, ws, outs, j);
    }
  }

  lemma OpenSinceWithin(p: Params, key: int, ws: seq<Window>, outs: seq<Out>, j: nat)
    requires |ws| == |outs|
    ensures OpenSince(p, key, ws, outs, j) ==> j < |ws|
  {
  }

  // ---- Contexts left and resumed

  lemma LastStoredNow(ops: seq<Op>, op: Op, k: int)
    ensures ContextCache.LastStored(ops + [op], k) ==
            if op.Store? && op.key == k then Some(op.value) else ContextCache.LastStored(ops, k)
  {
    assert (ops + [op])[..|ops|] == ops;
  }

  /** What a context was left with: its core was the last one stored for it, and its history is kept. */
  ghost predicate LeftWith(s: State, k: int, b: Book) {
    s.key != k && ContextCache.LastStored(s.ops, k) == Some(b.core) && k in s.logs && s.logs[k] == b.log
  }

  lemma NextOps(a: Acoustics, p: Params, s: State, w: Window)
    requires Well(s)
    ensures var t := Next(a, p, s, w).0;
            && t.key == w.key
            && t.ops == (if w.key == s.key then s.ops else Left(s).ops + [ContextCache.Take(w.key)])
            && t.logs == (if w.key == s.key then s.logs else Left(s).logs)
  {
    hide Measured, Left, Grows;
  }

  lemma LeavingKeeps(a: Acoustics, p: Params, s: State, w: Window)
    requires Well(s) && w.key != s.key && s.local.book.core.mode != Learning
    ensures LeftWith(Next(a, p, s, w).0, s.key, s.local.book)
  {
    hide Next, ContextCache.LastStored;
    NextOps(a, p, s, w);
    LastStoredNow(s.ops, ContextCache.Store(s.key, s.local.book.core), s.key);
    LastStoredNow(Left(s).ops, ContextCache.Take(w.key), s.key);
  }

  lemma ElsewhereKeeps(a: Acoustics, p: Params, s: State, w: Window, k: int, b: Book)
    requires Well(s) && LeftWith(s, k, b) && w.key != k
    ensures LeftWith(Next(a, p, s, w).0, k, b)
  {
    hide Next, ContextCache.LastStored;
    NextOps(a, p, s, w);
    LastStoredNow(s.ops, ContextCache.Store(s.key, s.local.book.core), k);
    LastStoredNow(Left(s).ops, ContextCache.Take(w.key), k);
  }

  lemma {:induction false} AwayKeeps(a: Acoustics, p: Params, seed: Core, key: int, ws: seq<Window>, away: seq<Window>)
    requires Seed(seed) && away != []
    requires var s := Run(a, p, seed, key, ws);
             s.local.book.core.mode != Learning && forall i :: 0 <= i < |away| ==> away[i].key != s.key
    ensures var s := Run(a, p, seed, key, ws); LeftWith(Run(a, p, seed, key, ws + away), s.key, s.local.book)
    decreases |away|
  {
    hide Run, Next, LeftWith;
    var s := Run(a, p, seed, key, ws);
    var n := |away| - 1;
    assert ws + away == (ws + away[..n]) + [away[n]];
    RunNext(a, p, seed, key, ws + away[..n], away[n]);
    if n == 0 {
      assert ws + away[..n] == ws;
      LeavingKeeps(a, p, s, away[0]);
    } else {
      AwayKeeps(a, p, seed, key, ws, away[..n]);
      ElsewhereKeeps(a, p, Run(a, p, seed, key, ws + away[..n]), away[n], s.key, s.local.book);
    }
  }

  /** A context left with anything learned and then come back to, however many others came between, resumes exactly its
      reference, held step, refuted step and history while it is one of the eight used most recently, and starts
      afresh once it is not. */
  lemma ResumesAsLeft(a: Acoustics, p: Params, seed: Core, key: int, ws: seq<Window>, away: seq<Window>, w: Window)
    requires Seed(seed) && away != []
    requires var s := Run(a, p, seed, key, ws);
             && s.local.book.core.mode != Learning && w.key == s.key
             && forall i :: 0 <= i < |away| ==> away[i].key != s.key
    ensures var s, t := Run(a, p, seed, key, ws), Run(a, p, seed, key, ws + away);
            Arrived(a, t, w).local.book ==
              if s.key in ContextCache.AtMost(ContextCache.Recency(ContextCache.Uses(Left(t).ops)), ContextCache.SIZE)
              then s.local.book else Book(FRESH, [])
  {
    hide Run, ContextCache.Run, ContextCache.Recency, ContextCache.Uses, ContextCache.LastStored;
    var s, t := Run(a, p, seed, key, ws), Run(a, p, seed, key, ws + away);
    AwayKeeps(a, p, seed, key, ws, away);
    LastStoredNow(t.ops, ContextCache.Store(t.key, t.local.book.core), s.key);
    ContextCache.ResumesWhileRecent(Left(t).ops, s.key);
  }

  ghost predicate NoneLearning(ops: seq<Op>) {
    forall k :: k in ContextCache.Run(ops).entries ==> ContextCache.Run(ops).entries[k].mode != Learning
  }

  lemma NoneLearningOn(ops: seq<Op>, op: Op)
    requires NoneLearning(ops) && (op.Store? ==> op.value.mode != Learning)
    ensures NoneLearning(ops + [op])
  {
    hide ContextCache.Run;
    forall k | k in ContextCache.Run(ops + [op]).entries
      ensures ContextCache.Run(ops + [op]).entries[k].mode != Learning
    {
      StoredEntries(ops, op, k);
    }
  }

  /** No context is ever remembered that was still being learned. */
  lemma {:induction false} NoLearningRemembered(a: Acoustics, p: Params, seed: Core, key: int, ws: seq<Window>)
    requires Seed(seed)
    ensures NoneLearning(Run(a, p, seed, key, ws).ops)
    decreases |ws|
  {
    hide Next, NoneLearning;
    if ws == [] {
      EmptyNoneLearning();
    } else {
      var s, w := Run(a, p, seed, key, ws[..|ws| - 1]), ws[|ws| - 1];
      NoLearningRemembered(a, p, seed, key, ws[..|ws| - 1]);
      NextOps(a, p, s, w);
      if s.local.book.core.mode != Learning {
        NoneLearningOn(s.ops, ContextCache.Store(s.key, s.local.book.core));
      }
      NoneLearningOn(Left(s).ops, ContextCache.Take(w.key));
    }
  }

  lemma EmptyNoneLearning()
    ensures NoneLearning([])
  {
  }

  // ---- The bands taking part

  ghost predicate Synced(a: Acoustics, w: Work) {
    w.part == PartOf(a, w.book.core.ref)
  }

  lemma RefuteSynced(a: Acoustics, p: Params, w: Work, louder: bool, r: Reading)
    requires Fit(w) && Synced(a, w)
    ensures Synced(a, Refute(a, p, w, louder, r))
  {
    hide Against, Marks, Last, Grows;
  }

  lemma TakeStepBackSynced(a: Acoustics, w: Work, r: Reading)
    requires Fit(w) && Synced(a, w)
    ensures Synced(a, TakeStepBack(a, w, r))
  {
    hide Gathered, Grows;
  }

  lemma LoweredSynced(a: Acoustics, w: Work, r: Reading)
    requires Fit(w) && Synced(a, w)
    ensures Synced(a, Lowered(a, w, r))
  {
    hide MovedDown, Mean, Counted, Hold, Grows;
  }

  lemma GainedSynced(a: Acoustics, w: Work, r: Reading)
    requires Fit(w) && Synced(a, w)
    ensures Synced(a, Gained(a, w, r))
  {
    hide MovedDown, Mean, Counted, Grows;
  }

  lemma StaledSynced(a: Acoustics, w: Work, gate: bool, r: Reading)
    requires Fit(w) && Synced(a, w)
    ensures Synced(a, Staled(a, w, gate, r))
  {
    hide Grows;
  }

  lemma TrailedSynced(a: Acoustics, w: Work, r: Reading)
    requires Fit(w) && Synced(a, w)
    ensures Synced(a, Trailed(a, w, r))
  {
    hide Grows;
  }

  lemma WeighedSynced(a: Acoustics, p: Params, w: Work, louder: bool, gate: bool, r: Reading)
    requires Fit(w) && Synced(a, w)
    ensures Synced(a, Weighed(a, p, w, louder, gate, r))
  {
    hide Synced, Fit, Refute, TakeStepBack, Lowered, Gained, Staled, Trailed;
    RefuteSynced(a, p, w, louder, r);
    var x1 := Refute(a, p, w, louder, r);
    TakeStepBackSynced(a, x1, r);
    var x2 := TakeStepBack(a, x1, r);
    LoweredSynced(a, x2, r);
    var x3 := Lowered(a, x2, r);
    GainedSynced(a, x3, r);
    var x4 := Gained(a, x3, r);
    StaledSynced(a, x4, gate, r);
    TrailedSynced(a, Staled(a, x4, gate, r), r);
  }

  ghost predicate InSync(a: Acoustics, l: Local) {
    l.ev.part == PartOf(a, l.book.core.ref)
  }

  lemma ActedSync(a: Acoustics, p: Params, l: Local, r: Reading)
    requires Sane(l) && Acts(a, p, l.ev, r) && (IsNew(a, p, l.ev, r) || InSync(a, l))
    ensures InSync(a, Acted(a, p, l, r))
  {
    hide Weighed, Judged, Summed, NewStretch, Grows;
    var c := l.book.core;
    var louder := Judging(c) && a.louder(r.ref, c.ref.value, l.ev.part, 1.0);
    WeighedSynced(a, p, Begun(a, p, l, r), louder, l.ev.gate, r);
  }

  /** Leaving the no-band state moves the reference without the bands: the same run must begin a stretch, which it does
      as its level counts as confirmed. */
  lemma MeasuredSync(a: Acoustics, p: Params, l: Local, r: Reading)
    requires Sane(l) && InSync(a, l) && p.step > 0.0 && p.noBand >= 1
    ensures InSync(a, Measured(a, p, l, r))
  {
    hide Acted, Grows, Thin;
    var y := Narrowed(a, p, Doubted(a, l, r), r);
    var u := Widened(a, p, y, r);
    var z := u.(ev := Confirmed(a, p, u.ev, r));
    if Acts(a, p, z.ev, r) {
      ActedSync(a, p, z, r);
    }
  }

  /** The gate always measures over the bands that carry the reference's own noise, in every run whose level step is
      positive and whose no-band state takes at least one run. */
  lemma {:induction false} BandsFollowReference(a: Acoustics, p: Params, seed: Core, key: int, ws: seq<Window>)
    requires Seed(seed) && p.step > 0.0 && p.noBand >= 1
    ensures InSync(a, Run(a, p, seed, key, ws).local)
    decreases |ws|
  {
    hide Next, InSync;
    if ws == [] {
      StartSync(a, seed, key);
    } else {
      BandsFollowReference(a, p, seed, key, ws[..|ws| - 1]);
      NextSync(a, p, Run(a, p, seed, key, ws[..|ws| - 1]), ws[|ws| - 1]);
    }
  }

  lemma StartSync(a: Acoustics, seed: Core, key: int)
    requires Seed(seed)
    ensures InSync(a, Start(a, seed, key).local)
  {
  }

  lemma NextSync(a: Acoustics, p: Params, s: State, w: Window)
    requires Well(s) && InSync(a, s.local) && p.step > 0.0 && p.noBand >= 1
    ensures InSync(a, Next(a, p, s, w).0.local)
  {
    hide Measured, Left, Grows, Remembered;
    ArrivedWell(a, s, w);
    var t := Arrived(a, s, w);
    MeasuredSync(a, p, t.local.(ev := t.local.ev.(run := t.local.ev.run + 1)), w.run);
  }
}
