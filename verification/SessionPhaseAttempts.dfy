/** What an attempt publishes from its start to its end, told from the polls alone. */
module SessionPhaseAttempts {
  import opened SessionPhase
  import opened SessionPhaseRuns

  // ---- Which records count

  /** A record of the retained result the tracker took over when it first looked. */
  predicate IsRetained(t: Tracker, service: Service, session: nat) {
    var s := t.core.sessions;
    (s.ignoreRetained && session == s.ignored) || (!s.observed && (service == Unread || service == IDLE))
  }

  /** A record of the session the tracker follows, or of a newer one, which it then follows. */
  predicate Counts(t: Tracker, service: Service, session: nat) {
    var s := t.core.sessions;
    && !IsRetained(t, service, session)
    && if !s.observed then !s.waiting else if s.waiting then session > s.last else session >= s.last
  }

  /** A record of a session older than the one followed, which changes nothing. */
  predicate IsOld(t: Tracker, service: Service, session: nat) {
    var s := t.core.sessions;
    !IsRetained(t, service, session) && s.observed && !s.waiting && session < s.last
  }

  // ---- The end of a session

  /** A failure the tracker holds against the session of a record that counts. */
  predicate Stood(t: Tracker, session: nat) {
    t.core.attempt.failed && (!t.core.sessions.observed || session == t.core.sessions.last)
  }

  predicate TellsEnd(p: Poll) {
    p.Record? && p.reason != Pending
  }

  /** What may follow a session's first terminal record: its records, polls of a service not at work, and the user's
      calls that begin nothing. */
  predicate Trails(call: Call, session: nat) {
    match call
    case Update(p) =>
      && (p.Record? ==> p.session == session)
      && (TellsEnd(p) || (p.service != STARTING && p.service != RUNNING))
    case RequestStop(_) => true
    case TakeExpired => true
    case Retry(_, service) => Refuses(service)
    case Acknowledge(_, service) => service != IDLE
    case _ => false
  }

  /** The service has let go of the session: it is IDLE, or a poll without a result reads it as neither at work nor
      stopping. */
  predicate Released(p: Poll) {
    if TellsEnd(p) then p.service == IDLE else p.service != STOPPING
  }

  ghost predicate EndsSession(t: Tracker, session: nat, calls: seq<Call>) {
    && calls != []
    && calls[0].Update? && TellsEnd(calls[0].poll) && calls[0].poll.session == session
    && Counts(t, calls[0].poll.service, session)
    && forall k :: 0 < k < |calls| ==> Trails(calls[k], session)
  }

  ghost predicate SomeFailed(polls: seq<Poll>) {
    exists k :: 0 <= k < |polls| && polls[k].Record? && polls[k].reason == RunFailed
  }

  predicate Settled(t: Tracker, session: nat, failed: bool) {
    var s, a := t.core.sessions, t.core.attempt;
    && s.observed && s.last == session && !s.waiting && !(s.ignoreRetained && session == s.ignored)
    && a == Attempt(a.phase, failed, false, false, 0) && !(a.phase == Starting || a.phase == Running)
  }

  lemma FirstTerminal(t: Tracker, p: Poll)
    requires TellsEnd(p) && Counts(t, p.service, p.session)
    ensures var after := Polled(t, p);
            && Settled(after, p.session, Stood(t, p.session) || p.reason == RunFailed)
            && after.Phase() == if p.service != IDLE then Stopping
                                else if Stood(t, p.session) || p.reason == RunFailed then Failed else Idle
  {
  }

  lemma Trailing(t: Tracker, call: Call, session: nat, failed: bool)
    requires Settled(t, session, failed) && Trails(call, session)
    ensures !call.Update? ==> Applied(t, call).core == t.core
    ensures call.Update? ==>
              var now := failed || (call.poll.Record? && call.poll.reason == RunFailed);
              && Settled(Applied(t, call), session, now)
              && Applied(t, call).Phase() == if !Released(call.poll) then Stopping else if now then Failed else Idle
  {
  }

  lemma SomeFailedLast(polls: seq<Poll>)
    requires polls != []
    ensures var n := |polls| - 1;
            SomeFailed(polls) <==> SomeFailed(polls[..n]) || (polls[n].Record? && polls[n].reason == RunFailed)
  {
    var n := |polls| - 1;
    if SomeFailed(polls[..n]) {
      var k :| 0 <= k < n && polls[..n][k].Record? && polls[..n][k].reason == RunFailed;
      assert polls[k].Record?;
    }
    if SomeFailed(polls) {
      var k :| 0 <= k < |polls| && polls[k].Record? && polls[k].reason == RunFailed;
      assert k < n ==> polls[..n][k] == polls[k];
    }
  }

  /** From a session's first terminal record on, whatever records of it, polls and user calls follow, and whether or
      not a stop was asked for: Stopping is published while the service holds on to the session, and once it lets go,
      Failed exactly when some record said so or a failure stood, and Idle otherwise. */
  lemma {:induction false} EndIsPublished(t: Tracker, session: nat, calls: seq<Call>)
    requires EndsSession(t, session, calls)
    ensures calls != [] && PollsOf(calls) != []
    ensures var polls := PollsOf(calls);
            && Settled(Run(t, calls), session, Stood(t, session) || SomeFailed(polls))
            && Run(t, calls).Phase() == if !Released(polls[|polls| - 1]) then Stopping
                                        else if Stood(t, session) || SomeFailed(polls) then Failed else Idle
    decreases |calls|
  {
    StartsSomewhere(t, session, calls);
    hide *;
    var n := |calls| - 1;
    var before, polls := calls[..n], PollsOf(calls);
    if n == 0 {
      FirstOfEnd(t, session, calls);
    } else {
      var failed := Stood(t, session) || SomeFailed(PollsOf(before));
      EndsBefore(t, session, calls);
      EndIsPublished(t, session, before);
      CallLast(t, calls);
      Trailing(Run(t, before), calls[n], session, failed);
      if calls[n].Update? {
        SomeFailedLast(polls);
      } else {
        SameCore(Run(t, before), Run(t, calls), session, failed);
      }
    }
  }

  lemma StartsSomewhere(t: Tracker, session: nat, calls: seq<Call>)
    requires EndsSession(t, session, calls)
    ensures calls != []
  {
  }

  lemma EndsBefore(t: Tracker, session: nat, calls: seq<Call>)
    requires EndsSession(t, session, calls) && |calls| > 1
    ensures EndsSession(t, session, calls[..|calls| - 1]) && Trails(calls[|calls| - 1], session)
  {
    hide Trails, Counts, TellsEnd;
  }

  lemma FirstOfEnd(t: Tracker, session: nat, calls: seq<Call>)
    requires EndsSession(t, session, calls) && |calls| == 1
    ensures var polls := PollsOf(calls);
            && |polls| == 1 && Settled(Run(t, calls), session, Stood(t, session) || SomeFailed(polls))
            && Run(t, calls).Phase() == if !Released(polls[0]) then Stopping
                                        else if Stood(t, session) || SomeFailed(polls) then Failed else Idle
  {
    hide Stood, Counts, Settled, Run, PollsOf, Polled, SomeFailed;
    var p := calls[0].poll;
    assert calls == [calls[0]] && [p][..0] == [];
    FirstTerminal(t, p);
    OneCall(t, calls[0]);
    SomeFailedLast([p]);
    NoneFailed();
  }

  lemma CallLast(t: Tracker, calls: seq<Call>)
    requires calls != []
    ensures var n := |calls| - 1;
            && Run(t, calls) == Applied(Run(t, calls[..n]), calls[n])
            && (calls[n].Update? ==> PollsOf(calls) == PollsOf(calls[..n]) + [calls[n].poll]
                                     && PollsOf(calls)[..|PollsOf(calls)| - 1] == PollsOf(calls[..n]))
            && (!calls[n].Update? ==> PollsOf(calls) == PollsOf(calls[..n]))
  {
    assert PollsOf(calls[..|calls| - 1]) + [] == PollsOf(calls[..|calls| - 1]);
  }

  lemma NoneFailed()
    ensures !SomeFailed([])
  {
  }

  lemma OneCall(t: Tracker, call: Call)
    requires call.Update?
    ensures Run(t, [call]) == Polled(t, call.poll) && PollsOf([call]) == [call.poll]
  {
    assert [call][..0] == [];
    assert PollsOf([]) + [call.poll] == [call.poll];
  }

  lemma SameCore(t: Tracker, u: Tracker, session: nat, failed: bool)
    requires t.core == u.core && Settled(t, session, failed)
    ensures t.Phase() == u.Phase() && Settled(u, session, failed)
  {
  }

  // ---- Running

  /** A poll of a running service with its engine running, told by the state alone, by the retained record, or by a
      record that counts and has no result yet. */
  predicate SaysRunning(t: Tracker, call: Call) {
    && call.Update? && call.poll.service == RUNNING && call.poll.engineRunning
    && (call.poll.Record? ==>
          || IsRetained(t, RUNNING, call.poll.session)
          || (call.poll.reason == Pending && Counts(t, RUNNING, call.poll.session)))
  }

  /** What leaves a published Running as it is: an old session's record and calls that are refused or only read. */
  predicate LeavesRunning(t: Tracker, call: Call) {
    match call
    case Update(Record(service, _, session, _, _)) => IsOld(t, service, session)
    case Retry(_, service) => Refuses(service)
    case Acknowledge(_, _) => true
    case TakeExpired => true
    case _ => false
  }

  lemma RecordRunning(t: Tracker, p: Poll)
    requires p.Record?
    ensures Folded(t.core, p).attempt.phase == Running <==>
            SaysRunning(t, Update(p)) || (t.Phase() == Running && IsOld(t, p.service, p.session))
  {
  }

  lemma HeldRunning(stop: Stop, c: Core, service: Service, now: nat)
    ensures var after := Held(stop, c, service, now);
            after.Phase() == Running <==> !after.stop.requested && c.attempt.phase == Running
  {
  }

  lemma UpdateRunning(t: Tracker, p: Poll)
    ensures var after := Polled(t, p);
            after.Phase() == Running <==>
              && !after.stop.requested
              && (SaysRunning(t, Update(p)) || (t.Phase() == Running && LeavesRunning(t, Update(p))))
  {
    hide FoldRecord, Held, Counts, IsRetained, IsOld;
    HeldRunning(t.stop, Folded(t.core, p), p.service, p.now);
    if p.Record? {
      RecordRunning(t, p);
    }
  }

  lemma RunningStep(t: Tracker, call: Call)
    requires t.stop.requested ==> t.Phase() == Stopping
    ensures var after := Applied(t, call);
            after.Phase() == Running <==>
              !after.stop.requested && (SaysRunning(t, call) || (t.Phase() == Running && LeavesRunning(t, call)))
  {
    hide Polled, Counts, IsRetained, IsOld, FoldRecord;
    match call
    case Update(p) => UpdateRunning(t, p);
    case Acknowledge(session, service) =>
      if TakesAcknowledgement(t, service) {
        FoldedIdle(session);
      }
    case _ =>
  }

  lemma FoldedIdle(session: nat)
    ensures FoldRecord(FRESH.core, IDLE, false, session, Pending).attempt.phase == Idle
  {
  }

  lemma LeftRunning(t: Tracker, call: Call)
    requires !t.stop.requested && t.Phase() == Running && LeavesRunning(t, call)
    ensures !Applied(t, call).stop.requested && Applied(t, call).Phase() == Running
  {
  }

  /** Call i of a run says the engine runs, and no stop request stands after it. */
  ghost predicate SaysAt(calls: seq<Call>, i: nat)
    requires i < |calls|
  {
    SaysRunning(Run(FRESH, calls[..i]), calls[i]) && !Run(FRESH, calls[..i + 1]).stop.requested
  }

  ghost predicate LeavesAt(calls: seq<Call>, k: nat)
    requires k < |calls|
  {
    LeavesRunning(Run(FRESH, calls[..k]), calls[k])
  }

  /** Call i says so, and what follows leaves it at that. */
  ghost predicate SaidRunning(calls: seq<Call>, i: nat) {
    i < |calls| && SaysAt(calls, i) && forall k :: i < k < |calls| ==> LeavesAt(calls, k)
  }

  lemma SameBefore(calls: seq<Call>, n: nat, k: nat)
    requires k < n <= |calls|
    ensures SaysAt(calls[..n], k) <==> SaysAt(calls, k)
    ensures LeavesAt(calls[..n], k) <==> LeavesAt(calls, k)
  {
    assert calls[..n][..k] == calls[..k] && calls[..n][..k + 1] == calls[..k + 1];
  }

  lemma SaidRunningLast(calls: seq<Call>, i: nat)
    requires i < |calls|
    ensures var n := |calls| - 1;
            SaidRunning(calls, i) <==>
              if i == n then SaysRunning(Run(FRESH, calls[..n]), calls[n]) && !Run(FRESH, calls).stop.requested
              else LeavesRunning(Run(FRESH, calls[..n]), calls[n]) && SaidRunning(calls[..n], i)
  {
    hide Run, SaysRunning, LeavesRunning, SaidRunning;
    var n := |calls| - 1;
    assert calls[..n + 1] == calls;
    if i == n {
      SaidNow(calls);
    } else {
      SaidEarlier(calls, i);
    }
  }

  lemma SaidNow(calls: seq<Call>)
    requires calls != []
    ensures SaidRunning(calls, |calls| - 1) <==> SaysAt(calls, |calls| - 1)
  {
    hide SaysAt, LeavesAt;
  }

  lemma SaidEarlier(calls: seq<Call>, i: nat)
    requires i < |calls| - 1
    ensures var n := |calls| - 1; SaidRunning(calls, i) <==> LeavesAt(calls, n) && SaidRunning(calls[..n], i)
  {
    hide SaysAt, LeavesAt;
    var n := |calls| - 1;
    SameBefore(calls, n, i);
    if SaidRunning(calls, i) {
      forall k | i < k < n ensures LeavesAt(calls[..n], k) {
        SameBefore(calls, n, k);
      }
    }
    if LeavesAt(calls, n) && SaidRunning(calls[..n], i) {
      forall k | i < k <= n ensures LeavesAt(calls, k) {
        if k < n {
          SameBefore(calls, n, k);
        }
      }
    }
  }

  /** Over every run: Running is published exactly from a poll that says so until the next call that tells anything. */
  lemma {:induction false} RunningExactly(calls: seq<Call>)
    ensures Run(FRESH, calls).Phase() == Running <==> exists i :: SaidRunning(calls, i)
    decreases |calls|
  {
    hide Applied, SaidRunning, SaysRunning, LeavesRunning;
    if calls == [] {
      NothingSaid();
    } else {
      var n := |calls| - 1;
      var t := Run(FRESH, calls[..n]);
      RunningExactly(calls[..n]);
      FailureEndsGrace(calls[..n]);
      RunningStep(t, calls[n]);
      SaidInside(calls);
      SaidInside(calls[..n]);
      if t.Phase() == Running && LeavesRunning(t, calls[n]) {
        LeftRunning(t, calls[n]);
        var i: nat :| SaidRunning(calls[..n], i);
        SaidRunningLast(calls, i);
      } else if SaysRunning(t, calls[n]) {
        SaidRunningLast(calls, n);
      }
      if i: nat :| SaidRunning(calls, i) {
        SaidRunningLast(calls, i);
        assert i < n ==> SaidRunning(calls[..n], i);
      }
    }
  }

  lemma SaidInside(calls: seq<Call>)
    ensures forall i: nat :: SaidRunning(calls, i) ==> i < |calls|
  {
  }

  lemma NothingSaid()
    ensures forall i :: !SaidRunning([], i)
  {
  }

  // ---- From a start to the first idle polls

  predicate AtWork(p: Poll) {
    p.service == STARTING || p.service == RUNNING || p.service == STOPPING
  }

  /** A poll without a record, or a record of that session with no result yet. */
  predicate SpeaksOf(p: Poll, session: nat) {
    p.Record? ==> p.session == session && p.reason == Pending
  }

  ghost predicate Ran(polls: seq<Poll>) {
    exists k :: 0 <= k < |polls| && polls[k].service == RUNNING && polls[k].engineRunning
  }

  predicate NoRecord(polls: seq<Poll>) {
    forall k :: 0 <= k < |polls| ==> polls[k].StateOnly?
  }

  /** What the last poll of a service at work reads as. */
  function WorkPhase(p: Poll, ran: bool): Phase {
    match p.service
    case STARTING => Starting
    case RUNNING => if p.engineRunning then Running else if ran then Stopping else Starting
    case _ => Stopping
  }

  predicate Follows(s: Sessions, last: nat, session: nat) {
    s.observed && !s.ignoreRetained && if s.waiting then s.last == last else s.last == session
  }

  lemma RanLast(polls: seq<Poll>)
    requires polls != []
    ensures var n := |polls| - 1;
            Ran(polls) <==> Ran(polls[..n]) || (polls[n].service == RUNNING && polls[n].engineRunning)
  {
    var n := |polls| - 1;
    if Ran(polls[..n]) {
      var k :| 0 <= k < n && polls[..n][k].service == RUNNING && polls[..n][k].engineRunning;
      assert polls[k].engineRunning;
    }
    if Ran(polls) {
      var k :| 0 <= k < |polls| && polls[k].service == RUNNING && polls[k].engineRunning;
      assert k < n ==> polls[..n][k] == polls[k];
    }
  }

  lemma WorkStep(t: Tracker, last: nat, session: nat, p: Poll, ran: bool)
    requires session > last && SpeaksOf(p, session) && AtWork(p) && Follows(t.core.sessions, last, session)
    requires !t.stop.requested && !t.core.attempt.failed && t.core.attempt.sawRunning == ran
    ensures Polled(t, p).core.sessions.waiting == (t.core.sessions.waiting && !p.Record?)
    ensures var after := Polled(t, p);
            var now := ran || (p.service == RUNNING && p.engineRunning);
            && Follows(after.core.sessions, last, session) && !after.stop.requested
            && (t.core.attempt.attempting || p.service != STOPPING ==>
                  after.core.attempt == Attempt(WorkPhase(p, now), false, true, now, 0))
  {
  }

  lemma IdleStep(t: Tracker, last: nat, session: nat, p: Poll)
    requires session > last && SpeaksOf(p, session) && !AtWork(p) && Follows(t.core.sessions, last, session)
    requires !t.stop.requested && (p.Record? ==> !t.core.sessions.waiting || !t.core.attempt.failed)
    ensures Polled(t, p).core.sessions.waiting == (t.core.sessions.waiting && !p.Record?)
    ensures var a, after := t.core.attempt, Polled(t, p);
            && Follows(after.core.sessions, last, session) && !after.stop.requested
            && (a.grace > 1 ==> after.core.attempt == a.(grace := a.grace - 1, phase := Starting))
            && (a.grace == 1 || (a.grace == 0 && a.attempting && !a.sawRunning) ==> after.core.attempt == LATCHED)
            && (a.grace == 0 && (!a.attempting || a.sawRunning) ==>
                  after.core.attempt == Attempt(if a.failed then Failed else Idle, a.failed, false, false, 0))
  {
  }

  /** The polls of an accepted start while its service is at work. */
  lemma {:induction false} WorkReads(t: Tracker, last: nat, service: Service, session: nat, work: seq<Poll>)
    requires !Refuses(service) && session > last
    requires forall k :: 0 <= k < |work| ==> AtWork(work[k]) && SpeaksOf(work[k], session)
    ensures var after := PolledAll(Applied(t, Retry(last, service)), work);
            && Follows(after.core.sessions, last, session) && !after.stop.requested
            && after.core.sessions.waiting == NoRecord(work)
            && after.core.attempt == if work == [] then Attempt(Starting, false, true, false, START_GRACE_TICKS)
                                     else Attempt(WorkPhase(work[|work| - 1], Ran(work)), false, true, Ran(work), 0)
    decreases |work|
  {
    hide Polled, Ran;
    if work != [] {
      var n := |work| - 1;
      WorkReads(t, last, service, session, work[..n]);
      RanLast(work);
      NeverRan();
      assert NoRecord(work) <==> NoRecord(work[..n]) && !work[n].Record?;
      WorkStep(PolledAll(Applied(t, Retry(last, service)), work[..n]), last, session, work[n], Ran(work[..n]));
    }
  }

  lemma NeverRan()
    ensures !Ran([])
  {
  }

  /** What the tracker holds after an accepted start, the polls while its service is at work and the idle ones after
      them. */
  ghost function Reads(work: seq<Poll>, idle: seq<Poll>): Attempt {
    if work == [] then
      if |idle| < START_GRACE_TICKS then Attempt(Starting, false, true, false, START_GRACE_TICKS - |idle|) else LATCHED
    else if idle == [] then Attempt(WorkPhase(work[|work| - 1], Ran(work)), false, true, Ran(work), 0)
    else if Ran(work) then Attempt(Idle, false, false, false, 0)
    else LATCHED
  }

  /** While at work, an attempt's last poll reads as it says, a RUNNING one without the engine as Stopping exactly once
      the engine had been seen. After work the idle polls read Idle exactly when the engine was seen, and Failed
      otherwise; with none at work, Starting until the eighth, which fails the start. */
  lemma {:induction false} AttemptReads(t: Tracker, last: nat, service: Service, session: nat, work: seq<Poll>,
                                        idle: seq<Poll>)
    requires !Refuses(service) && session > last
    requires forall k :: 0 <= k < |work| ==> AtWork(work[k]) && SpeaksOf(work[k], session)
    requires forall k :: 0 <= k < |idle| ==> !AtWork(idle[k]) && SpeaksOf(idle[k], session)
    requires !NoRecord(work) || NoRecord(idle)
    ensures var after := PolledAll(PolledAll(Applied(t, Retry(last, service)), work), idle);
            && Follows(after.core.sessions, last, session) && !after.stop.requested
            && after.core.sessions.waiting == NoRecord(work)
            && after.core.attempt == Reads(work, idle)
    decreases |idle|
  {
    hide Polled, Ran;
    if idle == [] {
      WorkReads(t, last, service, session, work);
    } else {
      var n := |idle| - 1;
      AttemptReads(t, last, service, session, work, idle[..n]);
      IdleStep(PolledAll(PolledAll(Applied(t, Retry(last, service)), work), idle[..n]), last, session, idle[n]);
    }
  }
}
