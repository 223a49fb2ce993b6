/** When a refuted step is taken back, told from the runs since the last modulation against it: exactly once forty of
    them read as noise at its level three times in four, moved by their recent step. */
module SquelchLearnerBack {
  import opened Wrappers
  import opened SquelchLearner
  import opened SquelchLearnerTiming
  import opened SquelchLearnerRefuting
  import opened SquelchLearnerStepping

  /** For each run, its step from the refuted one when it has its spectrum and holds steady against the band above. */
  type Matches = seq<Option<real>>

  function MatchedIn(tape: Matches): nat {
    if tape == [] then 0 else MatchedIn(tape[..|tape| - 1]) + if tape[|tape| - 1].Some? then 1 else 0
  }

  /** The first matching step, drawn a fifth of the way to each one after. */
  function RecentOf(tape: Matches): real {
    if tape == [] then 0.0
    else
      var before, last := tape[..|tape| - 1], tape[|tape| - 1];
      if last.None? then RecentOf(before)
      else if MatchedIn(before) == 0 then last.value
      else 0.8 * RecentOf(before) + 0.2 * last.value
  }

  predicate BackHolds(back: Back, tape: Matches) {
    back == Back(|tape|, MatchedIn(tape), RecentOf(tape))
  }

  lemma GatheredHolds(back: Back, tape: Matches, step: Option<real>, r: Reading)
    requires BackHolds(back, tape)
    ensures BackHolds(Gathered(back, step, r), tape + [if r.rSteady then step else None])
  {
    var all := tape + [if r.rSteady then step else None];
    assert all[..|all| - 1] == tape;
  }

  lemma NothingMatched()
    ensures BackHolds(NO_BACK, [])
  {
  }

  // ---- One run

  /** What a run adds to the matches, and the reference a step taken back brings. */
  function BackNoted(a: Acoustics, w: Work, r: Reading, tape: Matches): (Matches, Option<Ref>) {
    if w.book.core.alt.None? then (tape, None)
    else
      var alt := w.book.core.alt.value;
      var part := Some(a.participating(alt));
      if a.louder(r.ref, alt, part, 2.0) then ([], None)
      else
        var all := tape + [if r.rSteady then a.noiseStep(r.ref, alt, part) else None];
        if |all| >= 40 && 4 * MatchedIn(all) >= 3 * |all| then ([], Some(a.shifted(alt, RecentOf(all))))
        else (all, None)
  }

  lemma BackTaken(a: Acoustics, w: Work, r: Reading, tape: Matches)
    requires Fit(w) && BackHolds(w.back, tape)
    ensures var y, (after, ref) := TakeStepBack(a, w, r), BackNoted(a, w, r, tape);
            && BackHolds(y.back, after) && w.book.log <= y.book.log && AddsOnly(w.book, y.book, TakeBack, ref)
  {
    hide Since, Gathered, MatchedIn, RecentOf, Unrefuted, Grows;
    NothingMatched();
    var y := TakeStepBack(a, w, r);
    if w.book.core.alt.Some? {
      var alt := w.book.core.alt.value;
      GatheredHolds(w.back, tape, a.noiseStep(r.ref, alt, Some(a.participating(alt))), r);
    }
    if y.book.log == w.book.log {
      NoneSince(w.book, y.book);
    } else {
      OneSince(w.book, y.book, Entry(TakeBack, w.book.core.ref, y.book.core.ref));
    }
  }

  /** The run once its level is judged and the held step has had its say. */
  function Weighing(a: Acoustics, p: Params, z: Local, r: Reading): (w: Work)
    requires Sane(z) && Acts(a, p, z.ev, r)
    ensures Fit(w)
  {
    var c := z.book.core;
    Refute(a, p, Begun(a, p, z, r), Judging(c) && a.louder(r.ref, c.ref.value, z.ev.part, 1.0), r)
  }

  /** An acting run: a refutation starts the matches afresh. */
  ghost function RunMatched(a: Acoustics, p: Params, z: Local, r: Reading, tape: Matches): (Matches, Option<Ref>)
    requires Sane(z) && Acts(a, p, z.ev, r)
  {
    var w := Weighing(a, p, z, r);
    BackNoted(a, w, r, if Undone(z.book, w.book) then [] else tape)
  }

  lemma WeighingHolds(a: Acoustics, p: Params, z: Local, r: Reading, tape: Matches)
    requires Sane(z) && Acts(a, p, z.ev, r) && BackHolds(z.ev.back, tape)
    ensures var w := Weighing(a, p, z, r);
            && BackHolds(w.back, if Undone(z.book, w.book) then [] else tape)
            && z.book.log <= w.book.log && Since(z.book, w.book, TakeBack) == []
  {
    hide Since, Judged, Louder, GainBegins, CarrierKeys, Summed, Undone, IsNew, Acts, Against, Marks, Last, MatchedIn,
         RecentOf, Unrefuted, Grows;
    NothingMatched();
    var b, w := Begun(a, p, z, r), Weighing(a, p, z, r);
    if IsNew(a, p, z.ev, r) {
      JudgedExactly(a, p, z, r);
    }
    ReplacementUndoes(z.book, b.book, r.ref, IsNew(a, p, z.ev, r) && Louder(a, p, z, r));
    if w.book.log == b.book.log {
      NoneSince(b.book, w.book);
      NoEntry(b.book, w.book);
    } else {
      var e := Entry(Refutation, b.book.core.ref, w.book.core.ref);
      OneSince(b.book, w.book, e);
      OneEntry(b.book, w.book, e);
    }
    SinceOn(z.book, b.book, w.book);
    EntriesSplit(z.book, b.book, w.book);
  }

  lemma ReplacementUndoes(b: Book, x: Book, ref: Ref, replaced: bool)
    requires x.log == if replaced then b.log + [Entry(Replacement, b.core.ref, Some(ref))] else b.log
    ensures b.log <= x.log && Since(b, x, TakeBack) == [] && !Undone(b, x)
  {
    ReplacementCalm(b, x, ref, replaced);
    if replaced {
      OneEntry(b, x, Entry(Replacement, b.core.ref, Some(ref)));
    } else {
      NoEntry(b, x);
    }
  }

  lemma SettlingKeeps(a: Acoustics, m: Work, gate: bool, r: Reading)
    requires Fit(m)
    ensures var y := Trailed(a, Staled(a, Gained(a, Lowered(a, m, r), r), gate, r), r);
            y.back == m.back && m.book.log <= y.book.log && Since(m.book, y.book, TakeBack) == []
  {
    hide Lowered, Gained, Staled, Trailed, Settles, Since, Grows;
    var x3 := Lowered(a, m, r);
    LoweredSettles(a, m, r);
    var x4 := Gained(a, x3, r);
    GainedSettles(a, x3, r);
    var x5 := Staled(a, x4, gate, r);
    StaledSettles(a, x4, gate, r);
    var y := Trailed(a, x5, r);
    TrailedSettles(a, x5, r);
    SettlesOn(m, x3, x4);
    SettlesOn(m, x4, x5);
    SettlesOn(m, x5, y);
    SettledWithoutBack(m, y);
  }

  lemma SettledWithoutBack(m: Work, y: Work)
    requires Settles(m, y)
    ensures y.back == m.back && m.book.log <= y.book.log && Since(m.book, y.book, TakeBack) == []
  {
    NoneOfKind(y.book.log[|m.book.log|..], TakeBack);
  }

  lemma {:induction false} NoneOfKind(entries: seq<Entry>, kind: Kind)
    requires forall k :: 0 <= k < |entries| ==> entries[k].kind != kind
    ensures KindRefs(entries, kind) == []
    decreases |entries|
  {
    if entries != [] {
      NoneOfKind(entries[..|entries| - 1], kind);
    }
  }

  lemma ActedMatches(a: Acoustics, p: Params, z: Local, r: Reading, tape: Matches)
    requires Sane(z) && Acts(a, p, z.ev, r) && BackHolds(z.ev.back, tape)
    ensures var y, (after, ref) := Acted(a, p, z, r), RunMatched(a, p, z, r, tape);
            && BackHolds(y.ev.back, after)
            && z.book.log <= y.book.log && Since(z.book, y.book, TakeBack) == Listed(ref)
  {
    hide Refute, TakeStepBack, Begun, Lowered, Gained, Staled, Trailed, Since, BackNoted, Listed, MatchedIn, RecentOf,
         Undone, IsNew, Acts, Grows;
    WeighingHolds(a, p, z, r, tape);
    var w := Weighing(a, p, z, r);
    BackTaken(a, w, r, if Undone(z.book, w.book) then [] else tape);
    var m := TakeStepBack(a, w, r);
    SettlingKeeps(a, m, z.ev.gate, r);
    var y := Acted(a, p, z, r);
    SinceOn(z.book, w.book, m.book);
    SinceOn(z.book, m.book, y.book);
  }

  // ---- Any number of windows

  /** A window that starts the account of the refuted step over: of another context, after a restart, or silent. */
  predicate Breaks(s: State, w: Window) {
    w.key != s.key || w.restart || w.silent
  }

  /** Modulation against the refuted step, in any run. */
  predicate Modulates(a: Acoustics, c: Core, r: Reading) {
    c.alt.Some? && a.louder(r.ref, c.alt.value, Some(a.participating(c.alt.value)), 2.0)
  }

  ghost function WindowMatched(a: Acoustics, p: Params, s: State, w: Window, tape: Matches): (Matches, Option<Ref>)
    requires Well(s)
  {
    ArrivedWell(a, s, w);
    var l := Counting(a, s, w);
    match Found(a, p, s, w)
    case None => (if Breaks(s, w) then [] else tape, None)
    case Some(z) =>
      var kept := if Breaks(s, w) || Modulates(a, l.book.core, w.run) || EndsNoBand(a, p, l, w.run) then [] else tape;
      if Acts(a, p, z.ev, w.run) then RunMatched(a, p, z, w.run, kept) else (kept, None)
  }

  lemma ArrivedBack(a: Acoustics, s: State, w: Window)
    ensures Arrived(a, s, w).local.ev.back == if w.key != s.key || w.restart then NO_BACK else s.local.ev.back
  {
  }

  lemma IdleBack(a: Acoustics, p: Params, s: State, w: Window)
    requires Well(s) && Found(a, p, s, w).None?
    ensures Next(a, p, s, w).0.local.ev.back == if Breaks(s, w) then NO_BACK else s.local.ev.back
  {
    hide Measured, Gated, Arrived, Grows;
    ArrivedWell(a, s, w);
    ArrivedBack(a, s, w);
  }

  lemma ReadyBack(a: Acoustics, p: Params, l: Local, r: Reading)
    requires Sane(l)
    ensures Ready(a, p, l, r).ev.back
            == if Modulates(a, l.book.core, r) || EndsNoBand(a, p, l, r) then NO_BACK else l.ev.back
  {
    hide Confirmed, IsNew, Grows;
    KeepsBack(a, p, Widened(a, p, Narrowed(a, p, Doubted(a, l, r), r), r).ev, r);
  }

  lemma KeepsBack(a: Acoustics, p: Params, e: Evidence, r: Reading)
    ensures Confirmed(a, p, e, r).back == e.back
  {
  }

  lemma NextMatches(a: Acoustics, p: Params, s: State, w: Window, tape: Matches)
    requires Well(s) && BackHolds(s.local.ev.back, tape)
    ensures var l, y := Arrived(a, s, w).local, Next(a, p, s, w).0.local;
            var (after, ref) := WindowMatched(a, p, s, w, tape);
            && BackHolds(y.ev.back, after)
            && l.book.log <= y.book.log && Since(l.book, y.book, TakeBack) == Listed(ref)
  {
    hide Next, Arrived, Ready, Acted, Acts, IsNew, RunMatched, Since, EndsNoBand, Modulates, MatchedIn, RecentOf, Grows;
    ArrivedWell(a, s, w);
    ArrivedBack(a, s, w);
    NothingMatched();
    NextFrom(a, p, s, w);
    var l, y := Arrived(a, s, w).local, Next(a, p, s, w).0.local;
    match Found(a, p, s, w)
    case None =>
      IdleBack(a, p, s, w);
      NoneSince(l.book, y.book);
    case Some(z) =>
      var c := Counting(a, s, w);
      ReadyBack(a, p, c, w.run);
      ReadyReplaces(a, p, c, w.run);
      ReplacementCalm(l.book, z.book, w.run.ref, EndsNoBand(a, p, c, w.run));
      if Acts(a, p, z.ev, w.run) {
        var kept := if Breaks(s, w) || Modulates(a, c.book.core, w.run) || EndsNoBand(a, p, c, w.run) then [] else tape;
        ActedMatches(a, p, z, w.run, kept);
      } else {
        NoneSince(z.book, y.book);
      }
      SinceOn(l.book, z.book, y.book);
  }

  /** The matches of the windows so far. */
  ghost function Matching(a: Acoustics, p: Params, s: State, ws: seq<Window>): Matches
    requires Well(s)
    decreases |ws|
  {
    if ws == [] then []
    else
      var n := |ws| - 1;
      WindowMatched(a, p, After(a, p, s, ws[..n]), ws[n], Matching(a, p, s, ws[..n])).0
  }

  lemma {:induction false} MatchingHolds(a: Acoustics, p: Params, s: State, ws: seq<Window>)
    requires Well(s) && s.local.ev.back == NO_BACK
    ensures BackHolds(After(a, p, s, ws).local.ev.back, Matching(a, p, s, ws))
    decreases |ws|
  {
    hide Next, WindowMatched, BackHolds, Grows;
    if ws == [] {
      NothingMatched();
    } else {
      var n := |ws| - 1;
      MatchingHolds(a, p, s, ws[..n]);
      NextMatches(a, p, After(a, p, s, ws[..n]), ws[n], Matching(a, p, s, ws[..n]));
    }
  }

  /** Over every run from a state without matches: a window takes a refuted step back exactly when, with its run, the
      matches since the last modulation bear it out, and to the reference they give. */
  lemma TakenBackExactly(a: Acoustics, p: Params, s: State, ws: seq<Window>, w: Window)
    requires Well(s) && s.local.ev.back == NO_BACK
    ensures var u := After(a, p, s, ws);
            var l, y := Arrived(a, u, w).local, Next(a, p, u, w).0.local;
            && l.book.log <= y.book.log
            && Since(l.book, y.book, TakeBack) == Listed(WindowMatched(a, p, u, w, Matching(a, p, s, ws)).1)
  {
    hide Next, Arrived, WindowMatched, Matching, After, Since, BackHolds, Grows;
    MatchingHolds(a, p, s, ws);
    NextMatches(a, p, After(a, p, s, ws), w, Matching(a, p, s, ws));
  }
}
