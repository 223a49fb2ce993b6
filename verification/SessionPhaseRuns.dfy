/** What the session tracker keeps over whole runs of calls and polls. */
module SessionPhaseRuns {
  import opened SessionPhase

  // ---- A stop request is an overlay

  /** The run with its stop requests taken out. */
  function WithoutStops(calls: seq<Call>): seq<Call> {
    if calls == [] then []
    else
      var last := calls[|calls| - 1];
      WithoutStops(calls[..|calls| - 1]) + if last.RequestStop? then [] else [last]
  }

  predicate Active(p: Phase) {
    p == Starting || p == Running || p == Stopping
  }

  predicate AttemptOverlays(a: Attempt, b: Attempt) {
    a.(phase := b.phase) == b && (a.phase == b.phase || (a.phase == Stopping && Active(b.phase)))
  }

  predicate CoreOverlays(c: Core, d: Core) {
    c.sessions == d.sessions && AttemptOverlays(c.attempt, d.attempt)
  }

  /** s, stopped at will, against u, never stopped: all but the stop fields agree, and so do the published phases,
      except that s may read Stopping where u reads any active phase. */
  predicate Overlays(s: Tracker, u: Tracker) {
    CoreOverlays(s.core, u.core) && !u.stop.requested
  }

  lemma CurrentKeepsOverlay(a: Attempt, b: Attempt, service: Service, engineRunning: bool, reason: Reason)
    requires AttemptOverlays(a, b)
    ensures FoldIdle(a) == FoldIdle(b)
    ensures AttemptOverlays(FoldState(a, service, engineRunning), FoldState(b, service, engineRunning))
    ensures AttemptOverlays(FoldCurrent(a, service, engineRunning, reason),
                            FoldCurrent(b, service, engineRunning, reason))
  {
  }

  lemma FoldKeepsOverlay(c: Core, d: Core, p: Poll)
    requires CoreOverlays(c, d)
    ensures CoreOverlays(Folded(c, p), Folded(d, p))
  {
    hide FoldState, FoldIdle, FoldCurrent;
    var reason := if p.Record? then p.reason else Pending;
    CurrentKeepsOverlay(c.attempt, d.attempt, p.service, p.engineRunning, reason);
    CurrentKeepsOverlay(c.attempt.(failed := false), d.attempt.(failed := false), p.service, p.engineRunning, reason);
  }

  lemma HeldKeepsOverlay(stop: Stop, c: Core, d: Core, quiet: Stop, service: Service, now: nat)
    requires CoreOverlays(c, d) && !quiet.requested
    ensures Overlays(Held(stop, c, service, now), Held(quiet, d, service, now))
  {
  }

  lemma OverlayKept(s: Tracker, u: Tracker, call: Call)
    requires Overlays(s, u)
    ensures call.RequestStop? ==> Overlays(Applied(s, call), u)
    ensures !call.RequestStop? ==> Overlays(Applied(s, call), Applied(u, call))
  {
    hide FoldRecord, FoldState, Held;
    match call
    case Update(p) =>
      FoldKeepsOverlay(s.core, u.core, p);
      HeldKeepsOverlay(s.stop, Folded(s.core, p), Folded(u.core, p), u.stop, p.service, p.now);
    case Acknowledge(session, service) =>
      var c := FoldRecord(FRESH.core, service, false, session, Pending);
      HeldKeepsOverlay(FRESH.stop, c, c, FRESH.stop, service, 0);
    case _ =>
  }

  /** Stop requests never change when or how an attempt ends: over every run, with and without them. */
  lemma {:induction false} StopIsOverlay(calls: seq<Call>)
    ensures Overlays(Run(FRESH, calls), Run(FRESH, WithoutStops(calls)))
  {
    if calls != [] {
      var before, last := calls[..|calls| - 1], calls[|calls| - 1];
      StopIsOverlay(before);
      OverlayKept(Run(FRESH, before), Run(FRESH, WithoutStops(before)), last);
      var rest := WithoutStops(calls);
      if !last.RequestStop? {
        assert rest[..|rest| - 1] == WithoutStops(before);
      } else {
        assert rest == WithoutStops(before);
      }
    }
  }

  // ---- How long a stop request stands

  function PolledAll(t: Tracker, polls: seq<Poll>): Tracker {
    if polls == [] then t else Polled(PolledAll(t, polls[..|polls| - 1]), polls[|polls| - 1])
  }

  predicate ReadsRunning(p: Poll) {
    p.service == RUNNING
  }

  /** The poll at b opens an unbroken run of RUNNING polls that reaches the last one. */
  ghost predicate OpensRun(polls: seq<Poll>, b: nat) {
    && b < |polls|
    && (forall k :: b <= k < |polls| ==> ReadsRunning(polls[k]))
    && (b > 0 ==> !ReadsRunning(polls[b - 1]))
  }

  /** When the run opened at b began: with the request itself if that found the phase Running. */
  function RunStart(polls: seq<Poll>, b: nat, fromRunning: bool, requested: nat): nat
    requires b < |polls|
  {
    if b == 0 && fromRunning then requested else polls[b].now
  }

  /** The last poll drops the request: no STOPPING was read since it, and the RUNNING polls up to this one span the
      grace. */
  ghost predicate Expires(polls: seq<Poll>, fromRunning: bool, requested: nat) {
    && (forall k :: 0 <= k < |polls| ==> polls[k].service != STOPPING)
    && exists b :: OpensRun(polls, b)
                   && polls[|polls| - 1].now >= RunStart(polls, b, fromRunning, requested) + STOP_GRACE_MS
  }

  /** The last poll folds to Idle or Failed, as it would have without the request. */
  ghost predicate Ends(before: Tracker, polls: seq<Poll>) {
    polls != [] && !Active(PolledAll(before, polls).Phase())
  }

  /** The request's own memory of the polls since it. */
  ghost predicate Remembers(s: Stop, polls: seq<Poll>, fromRunning: bool, requested: nat) {
    && s.requested
    && (s.delivered <==> exists k :: 0 <= k < |polls| && polls[k].service == STOPPING)
    && (!s.delivered ==>
      if polls == [] then s.running == fromRunning && (fromRunning ==> s.since == requested)
      else if !ReadsRunning(polls[|polls| - 1]) then !s.running
      else s.running && exists b :: OpensRun(polls, b) && s.since == RunStart(polls, b, fromRunning, requested))
  }

  lemma RunIsUnique(polls: seq<Poll>, a: nat, b: nat)
    requires OpensRun(polls, a) && OpensRun(polls, b)
    ensures a == b
  {
  }

  lemma RunExtends(before: seq<Poll>, p: Poll, b: nat)
    requires ReadsRunning(p)
    ensures OpensRun(before, b) ==> OpensRun(before + [p], b)
    ensures before == [] || !ReadsRunning(before[|before| - 1]) ==> OpensRun(before + [p], |before|)
  {
    var polls := before + [p];
    assert |before| > 0 ==> polls[|before| - 1] == before[|before| - 1];
  }

  lemma MemoryKept(s: Stop, c: Core, before: seq<Poll>, p: Poll, fromRunning: bool, requested: nat)
    requires Remembers(s, before, fromRunning, requested) && Active(c.attempt.phase)
    ensures var after := Held(s, c, p.service, p.now);
            var polls := before + [p];
            if Expires(polls, fromRunning, requested)
            then after.core == c && after.stop == Stop(false, false, false, 0, true)
            else after.core == WithPhase(c, Stopping) && Remembers(after.stop, polls, fromRunning, requested)
  {
    var polls := before + [p];
    var last := |before|;
    assert polls[last] == p && polls[..last] == before;
    assert forall k :: 0 <= k < last ==> polls[k] == before[k];
    DeliveryExtends(before, p);
    if ReadsRunning(p) {
      if before == [] {
        RunExtends(before, p, 0);
        OnlyRun(polls, 0);
      } else if !ReadsRunning(before[last - 1]) {
        RunExtends(before, p, 0);
        OnlyRun(polls, last);
      } else if !s.delivered {
        var b :| OpensRun(before, b) && s.since == RunStart(before, b, fromRunning, requested);
        RunExtends(before, p, b);
        OnlyRun(polls, b);
      }
    } else {
      NoRun(polls);
    }
  }

  lemma DeliveryExtends(before: seq<Poll>, p: Poll)
    ensures var polls := before + [p];
            (exists k :: 0 <= k < |polls| && polls[k].service == STOPPING)
            <==> (p.service == STOPPING
                  || exists k :: 0 <= k < |before| && before[k].service == STOPPING)
  {
    var polls := before + [p];
    assert polls[|before|] == p;
    if exists k :: 0 <= k < |before| && before[k].service == STOPPING {
      var k :| 0 <= k < |before| && before[k].service == STOPPING;
      assert polls[k] == before[k];
    }
  }

  lemma OnlyRun(polls: seq<Poll>, b: nat)
    requires OpensRun(polls, b)
    ensures forall a :: OpensRun(polls, a) ==> a == b
  {
    forall a | OpensRun(polls, a) ensures a == b {
      RunIsUnique(polls, a, b);
    }
  }

  lemma NoRun(polls: seq<Poll>)
    requires polls != [] && !ReadsRunning(polls[|polls| - 1])
    ensures forall b: nat :: !OpensRun(polls, b)
  {
    forall b: nat ensures !OpensRun(polls, b) {
      assert b < |polls| ==> b <= |polls| - 1;
    }
  }

  lemma NothingToRemember(s: Stop, fromRunning: bool, requested: nat)
    requires s.requested && !s.delivered && s.running == fromRunning && s.since == requested
    ensures Remembers(s, [], fromRunning, requested)
  {
  }

  lemma UnheldIsFolded(u: Tracker, p: Poll)
    requires !u.stop.requested
    ensures Polled(u, p).core == Folded(u.core, p)
  {
  }

  lemma EndedIsCleared(s: Tracker, p: Poll)
    requires s.stop.requested && !Active(Folded(s.core, p).attempt.phase)
    ensures !Polled(s, p).stop.requested
  {
  }

  lemma UnrequestedStays(s: Tracker, p: Poll)
    requires !s.stop.requested
    ensures !Polled(s, p).stop.requested
  {
  }

  /** A taken request stands through every poll until exactly one of two things: a poll that ends the attempt, or one
      at which it expires. While it stands Stopping is published. */
  lemma {:induction false} RequestStandsExactly(before: Tracker, requested: nat, polls: seq<Poll>)
    requires TakesStop(before)
    ensures var after := PolledAll(StopRequested(before, requested), polls);
            after.stop.requested <==>
              forall i :: 0 < i <= |polls| ==>
                !Ends(before, polls[..i]) && !Expires(polls[..i], before.Phase() == Running, requested)
    ensures var after := PolledAll(StopRequested(before, requested), polls);
            after.stop.requested ==> after.Phase() == Stopping
    ensures var after := PolledAll(StopRequested(before, requested), polls);
            after.stop.requested ==> Remembers(after.stop, polls, before.Phase() == Running, requested)
    ensures Overlays(PolledAll(StopRequested(before, requested), polls), PolledAll(before, polls))
    decreases |polls|
  {
    hide Folded, Held, Remembers, Expires;
    var fromRunning := before.Phase() == Running;
    if polls == [] {
      NothingToRemember(StopRequested(before, requested).stop, fromRunning, requested);
    } else {
      var init, p := polls[..|polls| - 1], polls[|polls| - 1];
      RequestStandsExactly(before, requested, init);
      var s, u := PolledAll(StopRequested(before, requested), init), PolledAll(before, init);
      OverlayKept(s, u, Update(p));
      assert init + [p] == polls && polls[..|polls|] == polls;
      assert forall i :: 0 < i <= |init| ==> polls[..i] == init[..i];
      if s.stop.requested {
        var c := Folded(s.core, p);
        FoldKeepsOverlay(s.core, u.core, p);
        UnheldIsFolded(u, p);
        if Active(c.attempt.phase) {
          MemoryKept(s.stop, c, init, p, fromRunning, requested);
        } else {
          EndedIsCleared(s, p);
        }
      } else {
        UnrequestedStays(s, p);
      }
    }
  }

  // ---- The same over all calls

  function PollsOf(calls: seq<Call>): seq<Poll> {
    if calls == [] then []
    else
      var last := calls[|calls| - 1];
      PollsOf(calls[..|calls| - 1]) + if last.Update? then [last.poll] else []
  }

  /** A new start, or one that could not be handed over, which ends a request with whatever it stood for. */
  predicate Supersedes(call: Call) {
    match call
    case Start => true
    case StartAfter(_) => true
    case Retry(_, service) => !Refuses(service)
    case NoteStartFailed => true
    case _ => false
  }

  ghost predicate StandsThrough(t: Tracker, calls: seq<Call>) {
    forall i :: 0 <= i <= |calls| ==> Run(t, calls[..i]).stop.requested
  }

  /** The last call supersedes the request, or is a poll that ends or expires it. */
  ghost predicate EndedByLast(before: Tracker, requested: nat, calls: seq<Call>)
    requires calls != []
  {
    var last := calls[|calls| - 1];
    || Supersedes(last)
    || (last.Update? && (Ends(before, PollsOf(calls)) || Expires(PollsOf(calls), before.Phase() == Running, requested)))
  }

  ghost predicate NothingEnds(before: Tracker, requested: nat, calls: seq<Call>) {
    forall i :: 0 < i <= |calls| ==> !EndedByLast(before, requested, calls[..i])
  }

  /** The tracker but for the note of an expiry. */
  function Unnoted(t: Tracker): Tracker {
    t.(stop := t.stop.(expired := false))
  }

  lemma UnnotedPolled(t: Tracker, u: Tracker, p: Poll)
    requires Unnoted(t) == Unnoted(u)
    ensures Unnoted(Polled(t, p)) == Unnoted(Polled(u, p))
  {
  }

  lemma NeutralCall(t: Tracker, call: Call)
    requires t.stop.requested && t.Phase() == Stopping && !Supersedes(call) && !call.Update?
    ensures Unnoted(Applied(t, call)) == Unnoted(t)
  {
  }

  lemma SupersededStop(t: Tracker, call: Call)
    requires Supersedes(call)
    ensures !Applied(t, call).stop.requested
  {
  }

  lemma PrefixStands(t: Tracker, calls: seq<Call>)
    requires calls != []
    ensures var n := |calls| - 1;
            StandsThrough(t, calls) <==> StandsThrough(t, calls[..n]) && Run(t, calls).stop.requested
  {
    hide Run;
    var n := |calls| - 1;
    assert forall i :: 0 <= i <= n ==> calls[..i] == calls[..n][..i];
    assert calls[..n + 1] == calls;
  }

  lemma PrefixEnds(before: Tracker, requested: nat, calls: seq<Call>)
    requires calls != []
    ensures NothingEnds(before, requested, calls) <==>
            NothingEnds(before, requested, calls[..|calls| - 1]) && !EndedByLast(before, requested, calls)
  {
    hide EndedByLast;
    var n := |calls| - 1;
    assert forall i :: 0 < i <= n ==> calls[..i] == calls[..n][..i];
    assert calls[..n + 1] == calls;
  }

  /** A taken request stands through any calls, polls with stop requests, refused retries and dismissals between them,
      until exactly a call that begins another attempt, a poll that ends this one, or a poll at which it expires; and
      Stopping is published throughout. */
  lemma {:induction false} RequestStandsThroughCalls(before: Tracker, requested: nat, calls: seq<Call>)
    requires TakesStop(before)
    ensures var t := StopRequested(before, requested);
            && (StandsThrough(t, calls) <==> NothingEnds(before, requested, calls))
            && (StandsThrough(t, calls) ==>
                  && Run(t, calls).Phase() == Stopping
                  && Unnoted(Run(t, calls)) == Unnoted(PolledAll(t, PollsOf(calls))))
    decreases |calls|
  {
    hide Ends, Expires, Remembers, Overlays, Supersedes, StandsThrough, NothingEnds, Polled, Applied;
    var t := StopRequested(before, requested);
    if calls == [] {
      NoCalls(before, requested);
    } else {
      var n := |calls| - 1;
      var init, call := calls[..n], calls[n];
      RequestStandsThroughCalls(before, requested, init);
      PrefixStands(t, calls);
      PrefixEnds(before, requested, calls);
      if StandsThrough(t, init) {
        StandsLast(t, init);
        StandsNext(before, requested, init, call);
      }
    }
  }

  lemma NoCalls(before: Tracker, requested: nat)
    requires TakesStop(before)
    ensures var t := StopRequested(before, requested);
            StandsThrough(t, []) && NothingEnds(before, requested, []) && Run(t, []) == t && t.Phase() == Stopping
            && PolledAll(t, PollsOf([])) == t
  {
  }

  lemma StandsLast(t: Tracker, calls: seq<Call>)
    requires StandsThrough(t, calls)
    ensures Run(t, calls).stop.requested
  {
    assert calls[..|calls|] == calls;
  }

  /** One more call, the request standing so far. */
  lemma StandsNext(before: Tracker, requested: nat, init: seq<Call>, call: Call)
    requires TakesStop(before)
    requires var t := StopRequested(before, requested);
             && Run(t, init).stop.requested && Run(t, init).Phase() == Stopping
             && Unnoted(Run(t, init)) == Unnoted(PolledAll(t, PollsOf(init)))
    ensures var t, calls := StopRequested(before, requested), init + [call];
            && (Run(t, calls).stop.requested <==> !EndedByLast(before, requested, calls))
            && (Run(t, calls).stop.requested ==>
                  && Run(t, calls).Phase() == Stopping
                  && Unnoted(Run(t, calls)) == Unnoted(PolledAll(t, PollsOf(calls))))
  {
    hide Ends, Expires, Remembers, Overlays, Supersedes, Polled, Applied;
    var t, calls := StopRequested(before, requested), init + [call];
    assert calls[..|calls| - 1] == init;
    var now := Run(t, init);
    assert Run(t, calls) == Applied(now, call);
    if call.Update? {
      UpdateStands(before, requested, PollsOf(init), call.poll, now);
    } else if Supersedes(call) {
      SupersededStop(now, call);
    } else {
      NeutralCall(now, call);
      assert PollsOf(calls) == PollsOf(init) + [];
      assert PollsOf(init) + [] == PollsOf(init);
    }
  }

  lemma UpdateStands(before: Tracker, requested: nat, polls: seq<Poll>, p: Poll, now: Tracker)
    requires TakesStop(before) && now.stop.requested
    requires Unnoted(now) == Unnoted(PolledAll(StopRequested(before, requested), polls))
    ensures var t, all := StopRequested(before, requested), polls + [p];
            var fromRunning := before.Phase() == Running;
            var r := Applied(now, Update(p));
            && !Supersedes(Update(p)) && Unnoted(r) == Unnoted(PolledAll(t, all))
            && (r.stop.requested <==> !Ends(before, all) && !Expires(all, fromRunning, requested))
            && (r.stop.requested ==> r.Phase() == Stopping)
  {
    hide Ends, Expires, Remembers, Overlays, Polled;
    var t, all := StopRequested(before, requested), polls + [p];
    assert all[..|all| - 1] == polls && all[..|all|] == all;
    UnnotedPolled(now, PolledAll(t, polls), p);
    RequestStandsExactly(before, requested, polls);
    RequestStandsExactly(before, requested, all);
    assert forall i :: 0 < i <= |polls| ==> all[..i] == polls[..i];
  }

  /** Without a clock, every poll's now being 0, no request ever expires, whenever it was made. */
  lemma {:induction false} NoClockNoExpiry(calls: seq<Call>)
    requires forall k :: 0 <= k < |calls| && calls[k].Update? ==> calls[k].poll.now == 0
    ensures !Run(FRESH, calls).stop.expired
    decreases |calls|
  {
    if calls != [] {
      hide FoldRecord, FoldState, Held;
      var u, call := Run(FRESH, calls[..|calls| - 1]), calls[|calls| - 1];
      NoClockNoExpiry(calls[..|calls| - 1]);
      match call
      case Update(p) => HeldWithoutClock(u.stop, Folded(u.core, p), p.service);
      case Acknowledge(session, service) =>
        HeldWithoutClock(FRESH.stop, FoldRecord(FRESH.core, service, false, session, Pending), service);
      case _ =>
    }
  }

  lemma HeldWithoutClock(stop: Stop, c: Core, service: Service)
    ensures Held(stop, c, service, 0).stop.expired == stop.expired
  {
  }

  // ---- Failures and the start grace

  /** What ends a latched failure. */
  predicate Clears(t: Tracker, call: Call) {
    match call
    case Start => true
    case StartAfter(_) => true
    case Retry(_, service) => !Refuses(service)
    case Acknowledge(_, service) => TakesAcknowledgement(t, service)
    case Update(Record(_, _, session, _, _)) => session > t.core.sessions.last
    case _ => false
  }

  predicate ClearsSomewhere(t: Tracker, calls: seq<Call>) {
    exists i :: 0 <= i < |calls| && Clears(Run(t, calls[..i]), calls[i])
  }

  predicate Graced(a: Attempt) {
    (a.failed ==> a.grace == 0) && a.grace <= START_GRACE_TICKS
  }

  lemma CurrentKeepsFailure(a: Attempt, service: Service, engineRunning: bool, reason: Reason)
    ensures a.failed ==> FoldIdle(a).failed && FoldState(a, service, engineRunning).failed
                         && FoldCurrent(a, service, engineRunning, reason).failed
    ensures Graced(a) ==> Graced(FoldIdle(a)) && Graced(FoldState(a, service, engineRunning))
                          && Graced(FoldCurrent(a, service, engineRunning, reason))
  {
  }

  lemma FoldKeepsFailure(c: Core, p: Poll)
    ensures c.attempt.failed && (p.Record? ==> p.session <= c.sessions.last || !c.sessions.observed) ==>
              Folded(c, p).attempt.failed
    ensures Graced(c.attempt) ==> Graced(Folded(c, p).attempt)
  {
    hide FoldState, FoldIdle, FoldCurrent;
    var reason := if p.Record? then p.reason else Pending;
    CurrentKeepsFailure(c.attempt, p.service, p.engineRunning, reason);
    CurrentKeepsFailure(c.attempt.(failed := false), p.service, p.engineRunning, reason);
  }

  lemma HeldKeepsCore(stop: Stop, c: Core, service: Service, now: nat)
    ensures WithPhase(Held(stop, c, service, now).core, c.attempt.phase) == c
    ensures Held(stop, c, service, now).stop.requested ==> Held(stop, c, service, now).Phase() == Stopping
  {
  }

  /** A failure noted before any record was seen outlives that record too: it becomes the session's baseline. */
  lemma {:induction false} FailureSticks(t: Tracker, calls: seq<Call>)
    requires t.core.attempt.failed && !ClearsSomewhere(t, calls)
    ensures Run(t, calls).core.attempt.failed
    decreases |calls|
  {
    if calls != [] {
      var before, n := calls[..|calls| - 1], |calls| - 1;
      assert forall i :: 0 <= i < n ==> calls[..i] == before[..i] && calls[i] == before[i];
      FailureSticks(t, before);
      var u := Run(t, before);
      assert !Clears(Run(t, calls[..n]), calls[n]);
      if calls[n].Update? {
        hide Folded, Held;
        FoldKeepsFailure(u.core, calls[n].poll);
        HeldKeepsCore(u.stop, Folded(u.core, calls[n].poll), calls[n].poll.service, calls[n].poll.now);
      }
    }
  }

  /** A latched failure and a running grace never meet. */
  lemma {:induction false} FailureEndsGrace(calls: seq<Call>)
    ensures var t := Run(FRESH, calls);
            Graced(t.core.attempt) && (t.stop.requested ==> t.Phase() == Stopping)
    decreases |calls|
  {
    if calls != [] {
      hide FoldRecord, FoldState, Held;
      var u, call := Run(FRESH, calls[..|calls| - 1]), calls[|calls| - 1];
      FailureEndsGrace(calls[..|calls| - 1]);
      match call
      case Update(p) =>
        FoldKeepsFailure(u.core, p);
        HeldKeepsCore(u.stop, Folded(u.core, p), p.service, p.now);
      case Acknowledge(session, service) =>
        FoldKeepsFailure(FRESH.core, Record(service, false, session, Pending, 0));
        HeldKeepsCore(FRESH.stop, FoldRecord(FRESH.core, service, false, session, Pending), service, 0);
      case _ =>
    }
  }

  /** After an accepted start every record of an old session, whatever it says, reads Starting seven times and Failed
      from then on: never Idle, never Running. */
  lemma {:induction false} OldRecordsRunOutTheGrace(t: Tracker, last: nat, service: Service, polls: seq<Poll>)
    requires !Refuses(service)
    requires forall k :: 0 <= k < |polls| ==> polls[k].Record? && polls[k].session <= last
    ensures PolledAll(Applied(t, Retry(last, service)), polls) ==
            Tracker(Core(if |polls| < START_GRACE_TICKS
                then Attempt(Starting, false, true, false, START_GRACE_TICKS - |polls|)
                         else LATCHED,
                         Sessions(true, last, false, t.core.sessions.ignored, true)),
                    Cleared(t.stop))
    decreases |polls|
  {
    if polls != [] {
      OldRecordsRunOutTheGrace(t, last, service, polls[..|polls| - 1]);
    }
  }

  /** Once a failure is dismissed, IDLE records of its session read Idle whatever result they retain. */
  lemma {:induction false} DismissedResultStaysQuiet(t: Tracker, session: nat, polls: seq<Poll>)
    requires TakesAcknowledgement(t, IDLE)
    requires forall k :: 0 <= k < |polls| ==>
               polls[k].Record? && polls[k].service == IDLE && polls[k].session == session
    ensures var after := PolledAll(Acknowledged(t, session, IDLE), polls);
            after == Tracker(Core(FRESH.core.attempt, Sessions(true, session, true, session, false)), FRESH.stop)
    decreases |polls|
  {
    if polls != [] {
      DismissedResultStaysQuiet(t, session, polls[..|polls| - 1]);
    }
  }
}
