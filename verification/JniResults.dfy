/** Which result a native run records, told from the schedule alone: what the decode loop returned and whether a stop
    was latched since the last configure. */
module JniResults {
  import opened JniLifecycle
  import opened Wrappers

  type Schedule = seq<(nat, Choice)>

  // ---- Stops, told from the steps

  /** nativeStop stores its latch. */
  predicate Latches(d: Design, s: State, step: (nat, Choice)) {
    && step.0 < |s.pcs| && step.1.Proceed?
    && if d.latchFirst then s.pcs[step.0].StopAdmitted? else s.pcs[step.0].StopHalfway?
  }

  /** nativeConfigure clears the latch. */
  predicate Unlatches(s: State, step: (nat, Choice)) {
    step.0 < |s.pcs| && step.1.Proceed? && s.pcs[step.0].ConfigureExitCleared?
  }

  /** nativeStop returns. */
  predicate StopReturns(s: State, step: (nat, Choice)) {
    step.0 < |s.pcs| && step.1.Proceed? && s.pcs[step.0].StopHalfway?
  }

  /** nativeConfigure, its arguments taken, begins to clear what earlier stops left. */
  predicate StartsClearing(s: State, step: (nat, Choice)) {
    step.0 < |s.pcs| && step.1.Proceed? && step.1.ok && s.pcs[step.0].ConfigureBegun?
  }

  /** Step i latches, and no later one clears the latch. */
  ghost predicate LatchedBy(d: Design, n: nat, schedule: Schedule, i: nat) {
    && i < |schedule|
    && Latches(d, Exec(d, n, schedule[..i]), schedule[i])
    && forall k :: i < k < |schedule| ==> !Unlatches(Exec(d, n, schedule[..k]), schedule[k])
  }

  /** A stop was latched since the last configure. */
  ghost predicate StopLatched(d: Design, n: nat, schedule: Schedule) {
    exists i: nat :: LatchedBy(d, n, schedule, i)
  }

  ghost predicate ReturnedBy(d: Design, n: nat, schedule: Schedule, i: nat) {
    && i < |schedule|
    && StopReturns(Exec(d, n, schedule[..i]), schedule[i])
    && forall k :: i < k < |schedule| ==> !StartsClearing(Exec(d, n, schedule[..k]), schedule[k])
  }

  /** A stop returned since the last configure. */
  ghost predicate StopReturned(d: Design, n: nat, schedule: Schedule) {
    exists i: nat :: ReturnedBy(d, n, schedule, i)
  }

  lemma FlagSteps(d: Design, s: State, step: (nat, Choice))
    ensures var f, g := s.shared.flags, Step(d, s, step.0, step.1).shared.flags;
            && (g.latch <==> Latches(d, s, step) || (f.latch && !Unlatches(s, step)))
            && (g.stopped <==> StopReturns(s, step) || (f.stopped && !StartsClearing(s, step)))
  {
  }

  lemma ExecLast(d: Design, n: nat, schedule: Schedule)
    requires schedule != []
    ensures var m := |schedule| - 1;
            Exec(d, n, schedule) == Step(d, Exec(d, n, schedule[..m]), schedule[m].0, schedule[m].1)
  {
  }

  lemma LatchedByLast(d: Design, n: nat, schedule: Schedule, i: nat)
    requires schedule != []
    ensures var m := |schedule| - 1;
            var s := Exec(d, n, schedule[..m]);
            && (LatchedBy(d, n, schedule, i) <==>
                  if i == m then Latches(d, s, schedule[m])
                  else LatchedBy(d, n, schedule[..m], i) && !Unlatches(s, schedule[m]))
            && (ReturnedBy(d, n, schedule, i) <==>
                  if i == m then StopReturns(s, schedule[m])
                  else ReturnedBy(d, n, schedule[..m], i) && !StartsClearing(s, schedule[m]))
  {
    hide Exec, Latches, Unlatches, StopReturns, StartsClearing;
    var m := |schedule| - 1;
    assert forall k :: 0 <= k <= m ==> schedule[..m][..k] == schedule[..k];
  }

  lemma HistoryLast(d: Design, n: nat, schedule: Schedule)
    requires schedule != []
    ensures var m := |schedule| - 1;
            var s := Exec(d, n, schedule[..m]);
            && (StopLatched(d, n, schedule) <==>
                  Latches(d, s, schedule[m]) || (StopLatched(d, n, schedule[..m]) && !Unlatches(s, schedule[m])))
            && (StopReturned(d, n, schedule) <==>
                  StopReturns(s, schedule[m]) || (StopReturned(d, n, schedule[..m]) && !StartsClearing(s, schedule[m])))
  {
    hide Exec, Latches, Unlatches, StopReturns, StartsClearing, LatchedBy, ReturnedBy;
    var m := |schedule| - 1;
    forall i: nat
      ensures var s := Exec(d, n, schedule[..m]);
              && (LatchedBy(d, n, schedule, i) <==>
                    if i == m then Latches(d, s, schedule[m])
                    else LatchedBy(d, n, schedule[..m], i) && !Unlatches(s, schedule[m]))
              && (ReturnedBy(d, n, schedule, i) <==>
                    if i == m then StopReturns(s, schedule[m])
                    else ReturnedBy(d, n, schedule[..m], i) && !StartsClearing(s, schedule[m]))
    {
      LatchedByLast(d, n, schedule, i);
    }
    InsidePrefix(d, n, schedule[..m]);
    assert LatchedBy(d, n, schedule, m) <==> Latches(d, Exec(d, n, schedule[..m]), schedule[m]);
    assert ReturnedBy(d, n, schedule, m) <==> StopReturns(Exec(d, n, schedule[..m]), schedule[m]);
    if i: nat :| LatchedBy(d, n, schedule[..m], i) {
      assert i != m;
    }
    if i: nat :| ReturnedBy(d, n, schedule[..m], i) {
      assert i != m;
    }
  }

  lemma InsidePrefix(d: Design, n: nat, schedule: Schedule)
    ensures forall i: nat :: LatchedBy(d, n, schedule, i) || ReturnedBy(d, n, schedule, i) ==> i < |schedule|
  {
  }

  /** What the flags say is what happened. */
  lemma {:induction false} FlagsTell(d: Design, n: nat, schedule: Schedule)
    ensures Exec(d, n, schedule).shared.flags.latch <==> StopLatched(d, n, schedule)
    ensures Exec(d, n, schedule).shared.flags.stopped <==> StopReturned(d, n, schedule)
    decreases |schedule|
  {
    if schedule == [] {
      assert forall i: nat :: !LatchedBy(d, n, schedule, i) && !ReturnedBy(d, n, schedule, i);
    } else {
      hide *;
      var m := |schedule| - 1;
      FlagsTell(d, n, schedule[..m]);
      HistoryLast(d, n, schedule);
      ExecLast(d, n, schedule);
      FlagSteps(d, Exec(d, n, schedule[..m]), schedule[m]);
    }
  }

  // ---- The recorded result

  /** The engine comes back to nativeRun: from the decode loop with what that returned, or with 1 before it. */
  predicate ComesBack(pc: Pc, c: Choice, claim: Claim, code: int) {
    && c.Proceed?
    && if pc == Decoding(claim) then code == c.rc
       else (pc == RunClaimed(claim) || pc == RunReset(claim)) && !c.ok && code == 1
  }

  /** A result for this code: cancelled whatever the code if a stop was latched, and told by the code if not. */
  predicate Tells(st: Status, code: int, cancelled: bool) {
    && st.code == code
    && (st.reason == Cancelled <==> cancelled)
    && (!cancelled ==> st.reason == if code == 0 then Completed else Failed)
  }

  lemma HowEnded(d: Design, s: State, step: (nat, Choice), t: nat)
    requires t < |s.pcs|
    ensures var r := Step(d, s, step.0, step.1);
            && (r.pcs[t].RunEnded? ==>
                  || r.pcs[t] == s.pcs[t]
                  || (step.0 == t && ComesBack(s.pcs[t], step.1, r.pcs[t].claim, r.pcs[t].rc)))
            && (r.pcs[t].RunRecorded? && r.pcs[t] != s.pcs[t] ==>
                  && step.0 == t && s.pcs[t].RunEnded? && s.pcs[t].claim == r.pcs[t].claim
                  && r.shared.status.session == s.shared.status.session
                  && Tells(r.shared.status, s.pcs[t].rc, s.shared.flags.latch))
  {
  }

  lemma StaysRecorded(d: Design, s: State, step: (nat, Choice), t: nat)
    requires Sound(s) && t < |s.pcs| && s.pcs[t].RunRecorded? && Step(d, s, step.0, step.1).pcs[t] == s.pcs[t]
    ensures Step(d, s, step.0, step.1).shared.status == s.shared.status
  {
    if step.0 == t {
    } else {
      OthersLeaveRunAlone(d, s, t, step);
    }
  }

  /** The engine came back to thread t at step i with this code, and t has been there since. */
  ghost predicate EndedAt(d: Design, n: nat, schedule: Schedule, t: nat, i: nat, claim: Claim, code: int)
    requires t < n
  {
    && i < |schedule| && schedule[i].0 == t
    && ComesBack(Exec(d, n, schedule[..i]).pcs[t], schedule[i].1, claim, code)
    && forall m :: i < m <= |schedule| ==> Exec(d, n, schedule[..m]).pcs[t] == RunEnded(claim, code)
  }

  lemma {:induction false} HasEnded(d: Design, n: nat, schedule: Schedule, t: nat) returns (i: nat)
    requires t < n && Exec(d, n, schedule).pcs[t].RunEnded?
    ensures EndedAt(d, n, schedule, t, i, Exec(d, n, schedule).pcs[t].claim, Exec(d, n, schedule).pcs[t].rc)
    decreases |schedule|
  {
    hide Exec, ComesBack, Step;
    NotAtStart(d, n, schedule, t);
    var m := |schedule| - 1;
    var s, r := Exec(d, n, schedule[..m]), Exec(d, n, schedule);
    ExecLast(d, n, schedule);
    HowEnded(d, s, schedule[m], t);
    assert schedule[..m + 1] == schedule;
    assert forall k :: 0 <= k <= m ==> schedule[..m][..k] == schedule[..k];
    if r.pcs[t] == s.pcs[t] {
      i := HasEnded(d, n, schedule[..m], t);
    } else {
      i := m;
    }
  }

  lemma NotAtStart(d: Design, n: nat, schedule: Schedule, t: nat)
    requires t < n && !Exec(d, n, schedule).pcs[t].Outside?
    ensures schedule != []
  {
  }

  /** Thread t's result was recorded at step j and is still its status. */
  ghost predicate RecordedAt(d: Design, n: nat, schedule: Schedule, t: nat, j: nat)
    requires t < n && Exec(d, n, schedule).pcs[t].RunRecorded?
  {
    && j < |schedule| && schedule[j].0 == t
    && (forall m :: j < m <= |schedule| ==> Exec(d, n, schedule[..m]).pcs[t] == Exec(d, n, schedule).pcs[t])
    && var s := Exec(d, n, schedule[..j]);
       var status := Exec(d, n, schedule).shared.status;
       && s.pcs[t] == RunEnded(Exec(d, n, schedule).pcs[t].claim, status.code)
       && Tells(status, status.code, StopLatched(d, n, schedule[..j]))
  }

  lemma {:induction false} HasRecorded(d: Design, n: nat, schedule: Schedule, t: nat) returns (j: nat)
    requires t < n && Exec(d, n, schedule).pcs[t].RunRecorded?
    ensures RecordedAt(d, n, schedule, t, j)
    decreases |schedule|
  {
    hide Exec, Step, StopLatched, Sound;
    NotAtStart(d, n, schedule, t);
    var m := |schedule| - 1;
    var s, r := Exec(d, n, schedule[..m]), Exec(d, n, schedule);
    ExecLast(d, n, schedule);
    HowEnded(d, s, schedule[m], t);
    assert schedule[..m + 1] == schedule;
    assert forall k :: 0 <= k <= m ==> schedule[..m][..k] == schedule[..k];
    if r.pcs[t] == s.pcs[t] {
      j := HasRecorded(d, n, schedule[..m], t);
      AlwaysSound(d, n, schedule[..m]);
      StaysRecorded(d, s, schedule[m], t);
    } else {
      j := m;
      FlagsTell(d, n, schedule[..m]);
    }
  }

  /** In every interleaving, of a run with its result recorded: the engine came back at some step i, and the result was
      recorded at a later one j, the thread taking no step between. The code is what the engine came back with; the
      reason is Cancelled exactly when a stop was latched since configure by step j, and otherwise told by the code. */
  lemma RecordedResult(d: Design, n: nat, schedule: Schedule, t: nat) returns (i: nat, j: nat)
    requires t < n && Exec(d, n, schedule).pcs[t].RunRecorded?
    ensures RecordedAt(d, n, schedule, t, j) && i < j
    ensures var r := Exec(d, n, schedule);
            && EndedAt(d, n, schedule[..j], t, i, r.pcs[t].claim, r.shared.status.code)
            && r.shared.status.session == r.pcs[t].claim.session
  {
    hide Exec, ComesBack, StopLatched, Sound, InRun;
    j := HasRecorded(d, n, schedule, t);
    i := HasEnded(d, n, schedule[..j], t);
    OwnSession(d, n, schedule, t);
  }

  lemma OwnSession(d: Design, n: nat, schedule: Schedule, t: nat)
    requires t < n && Exec(d, n, schedule).pcs[t].RunRecorded?
    ensures Exec(d, n, schedule).shared.status.session == Exec(d, n, schedule).pcs[t].claim.session
  {
    hide Exec;
    OneRunOwnsTheEngine(d, n, schedule, t);
  }

  /** Under the shipped protocol a run is recorded as Cancelled whenever a stop returned, since configure, before its
      result was recorded. */
  lemma StoppedIsCancelled(n: nat, schedule: Schedule, t: nat) returns (j: nat)
    requires t < n && Exec(SHIPPED, n, schedule).pcs[t].RunRecorded?
    ensures RecordedAt(SHIPPED, n, schedule, t, j)
    ensures StopReturned(SHIPPED, n, schedule[..j]) ==> Exec(SHIPPED, n, schedule).shared.status.reason == Cancelled
  {
    hide Exec, StopLatched, StopReturned;
    j := HasRecorded(SHIPPED, n, schedule, t);
    FlagsTell(SHIPPED, n, schedule[..j]);
    ShippedKeepsStops(n, schedule[..j]);
  }

  // ---- The start mark

  /** In a run, past the start hook's first look at the latch. */
  predicate PastLook(pc: Pc) {
    InRun(pc) && !pc.RunClaimed? && !pc.RunReset?
  }

  /** The status carries no mark before a run's hook sets it. */
  predicate Unmarked(sh: Shared, pc: Pc) {
    (InConfigure(pc) && !pc.ConfigureHeld?) || pc.RunClaimed? || pc.RunReset? || pc.HookMarking? ==>
      !sh.status.initialized
  }

  ghost predicate MarksSound(s: State) {
    && (s.shared.engine.configured && s.shared.engine.runner.None? ==> !s.shared.status.initialized)
    && forall t :: 0 <= t < |s.pcs| ==> Unmarked(s.shared, s.pcs[t])
  }

  lemma LocalMarks(d: Design, t: nat, pc: Pc, sh: Shared, c: Choice)
    requires SharedSound(sh) && ThreadSound(sh, t, pc) && Unmarked(sh, pc)
    requires sh.engine.configured && sh.engine.runner.None? ==> !sh.status.initialized
    ensures var (after, r) := Local(d, t, pc, sh, c);
            Unmarked(r, after) && (r.engine.configured && r.engine.runner.None? ==> !r.status.initialized)
  {
  }

  lemma OtherMarks(d: Design, t: nat, pc: Pc, sh: Shared, c: Choice, u: nat, other: Pc)
    requires SharedSound(sh) && ThreadSound(sh, t, pc) && ThreadSound(sh, u, other) && t != u && Unmarked(sh, other)
    ensures Unmarked(Local(d, t, pc, sh, c).1, other)
  {
  }

  lemma {:induction false} AlwaysMarked(d: Design, n: nat, schedule: Schedule)
    ensures MarksSound(Exec(d, n, schedule))
    decreases |schedule|
  {
    if schedule != [] {
      hide Local, SharedSound, ThreadSound, Unmarked, Exec;
      var m := |schedule| - 1;
      var s, t, c := Exec(d, n, schedule[..m]), schedule[m].0, schedule[m].1;
      AlwaysMarked(d, n, schedule[..m]);
      AlwaysSound(d, n, schedule[..m]);
      ExecLast(d, n, schedule);
      if t < |s.pcs| && Admitted(d, s, c) {
        LocalMarks(d, t, s.pcs[t], s.shared, c);
        forall u | 0 <= u < |s.pcs| && u != t ensures Unmarked(Local(d, t, s.pcs[t], s.shared, c).1, s.pcs[u]) {
          OtherMarks(d, t, s.pcs[t], s.shared, c, u, s.pcs[u]);
        }
      }
    }
  }

  /** At step h the hook of thread t's run took its first look, and the run has gone on since. */
  ghost predicate LooksAt(d: Design, n: nat, schedule: Schedule, t: nat, h: nat)
    requires t < n
  {
    && h < |schedule| && schedule[h].0 == t && schedule[h].1.Proceed? && schedule[h].1.ok
    && Exec(d, n, schedule[..h]).pcs[t].RunReset?
    && forall m :: h < m <= |schedule| ==> PastLook(Exec(d, n, schedule[..m]).pcs[t])
  }

  /** And found no stop latched. */
  ghost predicate FoundNoStop(d: Design, n: nat, schedule: Schedule, t: nat)
    requires t < n
  {
    exists h: nat :: LooksAt(d, n, schedule, t, h) && !StopLatched(d, n, schedule[..h])
  }

  lemma LooksAtLast(d: Design, n: nat, schedule: Schedule, t: nat, h: nat)
    requires t < n && schedule != []
    ensures var m := |schedule| - 1;
            var s, r := Exec(d, n, schedule[..m]), Exec(d, n, schedule);
            LooksAt(d, n, schedule, t, h) <==>
              && PastLook(r.pcs[t])
              && if h == m then schedule[m].0 == t && schedule[m].1.Proceed? && schedule[m].1.ok && s.pcs[t].RunReset?
                 else LooksAt(d, n, schedule[..m], t, h)
  {
    hide Exec, InRun, PastLook;
    var m := |schedule| - 1;
    assert schedule[..m + 1] == schedule;
    assert forall k :: 0 <= k <= m ==> schedule[..m][..k] == schedule[..k];
  }

  lemma FoundLast(d: Design, n: nat, schedule: Schedule, t: nat)
    requires t < n && schedule != []
    ensures var m := |schedule| - 1;
            var s, r := Exec(d, n, schedule[..m]), Exec(d, n, schedule);
            FoundNoStop(d, n, schedule, t) <==>
              && PastLook(r.pcs[t])
              && ((schedule[m].0 == t && schedule[m].1.Proceed? && schedule[m].1.ok && s.pcs[t].RunReset?
                   && !s.shared.flags.latch)
                  || FoundNoStop(d, n, schedule[..m], t))
  {
    hide Exec, InRun, PastLook, StopLatched;
    var m := |schedule| - 1;
    FlagsTell(d, n, schedule[..m]);
    LooksAtLast(d, n, schedule, t, m);
    if h: nat :| LooksAt(d, n, schedule, t, h) && !StopLatched(d, n, schedule[..h]) {
      LooksAtLast(d, n, schedule, t, h);
      LooksInside(d, n, schedule, t, h);
      assert h < m ==> schedule[..m][..h] == schedule[..h];
    }
    if h: nat :| LooksAt(d, n, schedule[..m], t, h) && !StopLatched(d, n, schedule[..m][..h]) {
      LooksInside(d, n, schedule[..m], t, h);
      LooksAtLast(d, n, schedule, t, h);
      assert schedule[..m][..h] == schedule[..h];
    }
  }

  lemma LooksInside(d: Design, n: nat, schedule: Schedule, t: nat, h: nat)
    requires t < n && LooksAt(d, n, schedule, t, h)
    ensures h < |schedule| && PastLook(Exec(d, n, schedule[..|schedule|]).pcs[t])
  {
  }

  /** What a step makes of the mark of thread t's run. */
  lemma MarkStep(d: Design, s: State, step: (nat, Choice), t: nat)
    requires Sound(s) && MarksSound(s) && t < |s.pcs|
    ensures var r := Step(d, s, step.0, step.1);
            var pc, now := s.pcs[t], r.pcs[t];
            var looks := step.0 == t && step.1.Proceed? && step.1.ok && pc.RunReset?;
            && (PastLook(now) && !PastLook(pc) ==>
                  !r.shared.status.initialized && (now.HookMarking? <==> looks && !s.shared.flags.latch))
            && (PastLook(now) && PastLook(pc) && now.HookMarking? ==> pc.HookMarking?)
            && (PastLook(now) && PastLook(pc) ==>
                  if pc.HookMarking? && !now.HookMarking? then r.shared.status.initialized
                  else r.shared.status.initialized == s.shared.status.initialized)
  {
    hide SharedSound;
    if step.0 != t && InRun(s.pcs[t]) {
      OthersLeaveRunAlone(d, s, t, step);
    } else if step.0 != t {
      OthersStay(d, s, step, t);
    } else {
      assert Unmarked(s.shared, s.pcs[t]);
    }
  }

  lemma OthersStay(d: Design, s: State, step: (nat, Choice), t: nat)
    requires t < |s.pcs| && step.0 != t
    ensures Step(d, s, step.0, step.1).pcs[t] == s.pcs[t]
  {
  }

  /** In every interleaving: past its hook, a run is marked as started exactly when its hook's first look found no stop
      latched since the last configure. */
  lemma {:induction false} StartedExactly(d: Design, n: nat, schedule: Schedule, t: nat)
    requires t < n && PastLook(Exec(d, n, schedule).pcs[t])
    ensures var s := Exec(d, n, schedule);
            if s.pcs[t].HookMarking? then FoundNoStop(d, n, schedule, t)
            else s.shared.status.initialized <==> FoundNoStop(d, n, schedule, t)
    decreases |schedule|
  {
    hide Exec, Step, FoundNoStop, Sound, MarksSound;
    RunNotAtStart(d, n, schedule, t);
    var m := |schedule| - 1;
    var s := Exec(d, n, schedule[..m]);
    AlwaysSound(d, n, schedule[..m]);
    AlwaysMarked(d, n, schedule[..m]);
    ExecLast(d, n, schedule);
    FoundLast(d, n, schedule, t);
    MarkStep(d, s, schedule[m], t);
    if PastLook(s.pcs[t]) {
      StartedExactly(d, n, schedule[..m], t);
    } else {
      NotFoundBefore(d, n, schedule[..m], t);
    }
  }

  lemma RunNotAtStart(d: Design, n: nat, schedule: Schedule, t: nat)
    requires t < n && PastLook(Exec(d, n, schedule).pcs[t])
    ensures schedule != []
  {
  }

  lemma NotFoundBefore(d: Design, n: nat, schedule: Schedule, t: nat)
    requires t < n && !PastLook(Exec(d, n, schedule).pcs[t])
    ensures !FoundNoStop(d, n, schedule, t)
  {
    hide Exec, InRun, PastLook;
    assert schedule[..|schedule|] == schedule;
  }

  // ---- What a configure leaves, and when a stop is taken

  /** Thread t's configure of that session began its status at step i and has held the engine since. */
  ghost predicate ConfiguresFrom(d: Design, n: nat, schedule: Schedule, t: nat, i: nat, session: nat)
    requires t < n
  {
    && i < |schedule| && schedule[i].0 == t && schedule[i].1.Proceed?
    && Exec(d, n, schedule[..i]).pcs[t] == ConfigureHeld(session)
    && forall m :: i < m <= |schedule| ==>
         InConfigure(Exec(d, n, schedule[..m]).pcs[t]) && !Exec(d, n, schedule[..m]).pcs[t].ConfigureHeld?
  }

  lemma ConfigureStep(d: Design, s: State, step: (nat, Choice), t: nat)
    requires Sound(s) && t < |s.pcs|
    ensures var r := Step(d, s, step.0, step.1);
            var pc, now := s.pcs[t], r.pcs[t];
            InConfigure(now) && !now.ConfigureHeld? ==>
              if pc.ConfigureHeld?
              then step.0 == t && step.1.Proceed? && r.shared.status == Status(pc.session, false, Pending, 0)
              else InConfigure(pc) && r.shared.status == s.shared.status
  {
    hide SharedSound;
    if step.0 != t {
      OthersStay(d, s, step, t);
      if step.0 < |s.pcs| && InConfigure(s.pcs[t]) {
        assert ThreadSound(s.shared, step.0, s.pcs[step.0]) && ThreadSound(s.shared, t, s.pcs[t]);
        OtherLeavesConfigureAlone(d, step.0, s.pcs[step.0], s.shared, step.1, t);
      }
    }
  }

  lemma OtherLeavesConfigureAlone(d: Design, u: nat, pc: Pc, sh: Shared, c: Choice, t: nat)
    requires SharedSound(sh) && ThreadSound(sh, u, pc) && sh.lockOwner == Some(t) && u != t
    ensures Local(d, u, pc, sh, c).1.status == sh.status
  {
  }

  lemma {:induction false} HasBegun(d: Design, n: nat, schedule: Schedule, t: nat) returns (i: nat, session: nat)
    requires t < n && InConfigure(Exec(d, n, schedule).pcs[t]) && !Exec(d, n, schedule).pcs[t].ConfigureHeld?
    ensures ConfiguresFrom(d, n, schedule, t, i, session)
    ensures Exec(d, n, schedule).shared.status == Status(session, false, Pending, 0)
    decreases |schedule|
  {
    hide Exec, Step, Sound, InConfigure;
    ConfigureNotAtStart(d, n, schedule, t);
    var m := |schedule| - 1;
    var s := Exec(d, n, schedule[..m]);
    ExecLast(d, n, schedule);
    AlwaysSound(d, n, schedule[..m]);
    ConfigureStep(d, s, schedule[m], t);
    assert schedule[..m + 1] == schedule;
    assert forall k :: 0 <= k <= m ==> schedule[..m][..k] == schedule[..k];
    if s.pcs[t].ConfigureHeld? {
      i, session := m, s.pcs[t].session;
    } else {
      i, session := HasBegun(d, n, schedule[..m], t);
    }
  }

  lemma ConfigureNotAtStart(d: Design, n: nat, schedule: Schedule, t: nat)
    requires t < n && InConfigure(Exec(d, n, schedule).pcs[t])
    ensures schedule != []
  {
  }

  /** In every interleaving: a configure whose bootstrap has run lets go of the engine, configured exactly when it went
      through. Its session's status is then still pending, unless the bootstrap failed other than by a clean exit, which
      is recorded as Failed with STATUS_ERROR. */
  lemma ConfigureEnds(d: Design, n: nat, schedule: Schedule, t: nat, c: Choice) returns (i: nat, session: nat)
    requires t < n && Exec(d, n, schedule).pcs[t].ConfigureLatchCleared? && c.Proceed?
    ensures ConfiguresFrom(d, n, schedule, t, i, session)
    ensures var r := Step(d, Exec(d, n, schedule), t, c);
            && r.pcs[t].Outside? && r.shared.lockOwner.None? && r.shared.engine.configured == c.ok
            && r.shared.status == if c.ok || c.clean then Status(session, false, Pending, 0)
                                  else Status(session, false, Failed, -1)
  {
    i, session := HasBegun(d, n, schedule, t);
  }

  /** Thread t entered nativeStop at step i, the engine initialised, and has been in it since. */
  ghost predicate StopsFrom(d: Design, n: nat, schedule: Schedule, t: nat, i: nat)
    requires t < n
  {
    && i < |schedule| && schedule[i] == (t, Enter(Stop)) && Exec(d, n, schedule[..i]).shared.engine.initialized
    && forall m :: i < m <= |schedule| ==> InStop(Exec(d, n, schedule[..m]).pcs[t])
  }

  lemma StopStep(d: Design, s: State, step: (nat, Choice), t: nat)
    requires t < |s.pcs|
    ensures InStop(Step(d, s, step.0, step.1).pcs[t]) && !InStop(s.pcs[t]) ==>
              step == (t, Enter(Stop)) && s.shared.engine.initialized
    ensures step == (t, Enter(Stop)) && s.pcs[t].Outside? && Admitted(d, s, step.1) ==>
              (InStop(Step(d, s, step.0, step.1).pcs[t]) <==> s.shared.engine.initialized)
  {
  }

  /** In every interleaving a stop is under way only where nativeStop found the engine initialised; so none is latched
      or raised without one. */
  lemma {:induction false} StopsOnlyInitialised(d: Design, n: nat, schedule: Schedule, t: nat) returns (i: nat)
    requires t < n && InStop(Exec(d, n, schedule).pcs[t])
    ensures StopsFrom(d, n, schedule, t, i)
    decreases |schedule|
  {
    hide Exec, Step, InStop;
    StopNotAtStart(d, n, schedule, t);
    var m := |schedule| - 1;
    var s := Exec(d, n, schedule[..m]);
    ExecLast(d, n, schedule);
    StopStep(d, s, schedule[m], t);
    assert schedule[..m + 1] == schedule;
    assert forall k :: 0 <= k <= m ==> schedule[..m][..k] == schedule[..k];
    if InStop(s.pcs[t]) {
      i := StopsOnlyInitialised(d, n, schedule[..m], t);
    } else {
      i := m;
    }
  }

  lemma StopNotAtStart(d: Design, n: nat, schedule: Schedule, t: nat)
    requires t < n && InStop(Exec(d, n, schedule).pcs[t])
    ensures schedule != []
  {
  }
}
