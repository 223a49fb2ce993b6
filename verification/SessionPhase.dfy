/** The folding of service polls, lifecycle records and user requests into one published session phase: the values
    the tracker holds, what each call makes of them, and the tracker itself. */
module SessionPhase {
  datatype Phase = Idle | Starting | Running | Stopping | Failed
  datatype Reason = Pending | Completed | Cancelled | RunFailed

  /** DecoderService.stateName(), by the constant it compares equal to; Unread when the call failed. */
  datatype Service = Unread | Unnamed | IDLE | STARTING | RUNNING | STOPPING | Other(name: string)

  const START_GRACE_TICKS: nat := 8
  const STOP_GRACE_MS: nat := 2000

  /** The start attempt as folded so far, with the phase published for it. */
  datatype Attempt = Attempt(phase: Phase, failed: bool, attempting: bool, sawRunning: bool, grace: nat)
  /** Which session's records count. */
  datatype Sessions = Sessions(observed: bool, last: nat, ignoreRetained: bool, ignored: nat, waiting: bool)
  /** Everything a stop request leaves alone, but for the published phase. */
  datatype Core = Core(attempt: Attempt, sessions: Sessions)
  datatype Stop = Stop(requested: bool, delivered: bool, running: bool, since: nat, expired: bool)
  datatype Tracker = Tracker(core: Core, stop: Stop) {
    function Phase(): Phase {
      core.attempt.phase
    }
  }

  const FRESH := Tracker(Core(Attempt(Idle, false, false, false, 0), Sessions(false, 0, false, 0, false)),
                         Stop(false, false, false, 0, false))

  // ---- Folding one poll

  const LATCHED := Attempt(Failed, true, false, false, 0)

  function FoldIdle(a: Attempt): Attempt {
    if a.grace > 1 then a.(grace := a.grace - 1, phase := Starting)
    else if a.grace == 1 || (a.attempting && !a.sawRunning) then LATCHED
    else Attempt(if a.failed then Failed else Idle, a.failed, false, false, 0)
  }

  function FoldState(a: Attempt, service: Service, engineRunning: bool): Attempt {
    match service
    case STARTING => Attempt(Starting, a.failed, true, a.sawRunning, 0)
    case RUNNING =>
      Attempt(if engineRunning then Running else if a.sawRunning then Stopping else Starting,
              a.failed, true, a.sawRunning || engineRunning, 0)
    case STOPPING => a.(grace := 0, phase := Stopping)
    case _ => FoldIdle(a)
  }

  function FoldTerminal(a: Attempt, service: Service, reason: Reason): Attempt {
    var failed := a.failed || reason == RunFailed;
    Attempt(if service != IDLE then Stopping else if failed then Failed else Idle, failed, false, false, 0)
  }

  function FoldCurrent(a: Attempt, service: Service, engineRunning: bool, reason: Reason): Attempt {
    if reason == Pending then FoldState(a, service, engineRunning) else FoldTerminal(a, service, reason)
  }

  /** The first record seen is the past's: an inactive service's retained result is not this user's news. */
  function Observe(s: Sessions, service: Service, session: nat): Sessions {
    if s.observed then s
    else if service == Unread || service == IDLE then Sessions(true, session, true, session, s.waiting)
    else s.(observed := true, last := session)
  }

  function FoldObserved(c: Core, service: Service, engineRunning: bool, session: nat, reason: Reason): Core {
    var s := c.sessions;
    if s.ignoreRetained && session == s.ignored then c.(attempt := FoldState(c.attempt, service, engineRunning))
    else if s.waiting && session <= s.last then c.(attempt := FoldIdle(c.attempt))
    else if session < s.last then c
    else if session == s.last then c.(attempt := FoldCurrent(c.attempt, service, engineRunning, reason))
    else Core(FoldCurrent(c.attempt.(failed := false), service, engineRunning, reason),
              s.(last := session, waiting := false))
  }

  function FoldRecord(c: Core, service: Service, engineRunning: bool, session: nat, reason: Reason): Core {
    FoldObserved(c.(sessions := Observe(c.sessions, service, session)), service, engineRunning, session, reason)
  }

  // ---- Requests

  function Cleared(s: Stop): Stop {
    Stop(false, false, false, 0, s.expired)
  }

  function Started(t: Tracker): Tracker {
    Tracker(Core(Attempt(Starting, false, true, false, START_GRACE_TICKS),
                 t.core.sessions.(observed := true, ignoreRetained := false, waiting := false)), Cleared(t.stop))
  }

  function StartedAfter(t: Tracker, lastSession: nat): Tracker {
    var s := Started(t);
    s.(core := s.core.(sessions := s.core.sessions.(last := lastSession, waiting := true)))
  }

  /** A retry is refused while the service reports anything but IDLE. */
  predicate Refuses(service: Service) {
    service != Unread && service != Unnamed && service != IDLE
  }

  predicate TakesStop(t: Tracker) {
    !t.stop.requested && (t.Phase() == Starting || t.Phase() == Running)
  }

  function WithPhase(c: Core, phase: Phase): Core {
    c.(attempt := c.attempt.(phase := phase))
  }

  function StopRequested(t: Tracker, now: nat): Tracker {
    if !TakesStop(t) then t
    else Tracker(WithPhase(t.core, Stopping), Stop(true, false, t.Phase() == Running, now, t.stop.expired))
  }

  function StartFailed(t: Tracker): Tracker {
    Tracker(t.core.(attempt := LATCHED), Cleared(t.stop))
  }

  predicate TakesAcknowledgement(t: Tracker, service: Service) {
    t.Phase() == Failed && service == IDLE
  }

  function Acknowledged(t: Tracker, session: nat, service: Service): Tracker {
    if TakesAcknowledgement(t, service)
    then Held(FRESH.stop, FoldRecord(FRESH.core, service, false, session, Pending), service, 0) else t
  }

  /** Stopping held over the folded phase while a stop request stands. */
  function Held(stop: Stop, c: Core, service: Service, now: nat): Tracker {
    if !stop.requested then Tracker(c, stop)
    else if c.attempt.phase == Idle || c.attempt.phase == Failed then Tracker(c, Cleared(stop))
    else
      var s := if service == STOPPING then stop.(delivered := true) else stop;
      var held := WithPhase(c, Stopping);
      if service != RUNNING then Tracker(held, s.(running := false))
      else if s.delivered then Tracker(held, s)
      else if !s.running then Tracker(held, s.(running := true, since := now))
      else if now >= s.since && now - s.since >= STOP_GRACE_MS then Tracker(c, Cleared(s).(expired := true))
      else Tracker(held, s)
  }

  /** One poll: a lifecycle record, or the service state alone. */
  datatype Poll =
    | Record(service: Service, engineRunning: bool, session: nat, reason: Reason, now: nat)
    | StateOnly(service: Service, engineRunning: bool, now: nat)

  function Folded(c: Core, p: Poll): Core {
    match p
    case Record(service, running, session, reason, _) => FoldRecord(c, service, running, session, reason)
    case StateOnly(service, running, _) => c.(attempt := FoldState(c.attempt, service, running))
  }

  function Polled(t: Tracker, p: Poll): Tracker {
    Held(t.stop, Folded(t.core, p), p.service, p.now)
  }

  datatype Call =
    | Start
    | StartAfter(lastSession: nat)
    | Retry(lastSession: nat, service: Service)
    | Update(poll: Poll)
    | RequestStop(now: nat)
    | NoteStartFailed
    | Acknowledge(session: nat, service: Service)
    | TakeExpired

  function Applied(t: Tracker, call: Call): Tracker {
    match call
    case Start => Started(t)
    case StartAfter(last) => StartedAfter(t, last)
    case Retry(last, service) => if Refuses(service) then t else StartedAfter(t, last)
    case Update(p) => Polled(t, p)
    case RequestStop(now) => StopRequested(t, now)
    case NoteStartFailed => StartFailed(t)
    case Acknowledge(session, service) => Acknowledged(t, session, service)
    case TakeExpired => t.(stop := t.stop.(expired := false))
  }

  function Run(t: Tracker, calls: seq<Call>): Tracker {
    if calls == [] then t else Applied(Run(t, calls[..|calls| - 1]), calls[|calls| - 1])
  }

  // ---- The tracker

  class SessionPhaseTracker {
    var phase: Phase
    var lastSession: nat
    var observed: bool
    var ignoreRetained: bool
    var ignoredSession: nat
    var waitingForSession: bool
    var failed: bool
    var attempting: bool
    var sawRunning: bool
    var grace: nat
    var stopRequested: bool
    var stopDelivered: bool
    var stopRunning: bool
    var stopRunningSince: nat
    var stopExpired: bool

    function AttemptView(): Attempt
      reads `phase, `failed, `attempting, `sawRunning, `grace
    {
      Attempt(phase, failed, attempting, sawRunning, grace)
    }

    function SessionsView(): Sessions
      reads `observed, `lastSession, `ignoreRetained, `ignoredSession, `waitingForSession
    {
      Sessions(observed, lastSession, ignoreRetained, ignoredSession, waitingForSession)
    }

    function StopView(): Stop
      reads `stopRequested, `stopDelivered, `stopRunning, `stopRunningSince, `stopExpired
    {
      Stop(stopRequested, stopDelivered, stopRunning, stopRunningSince, stopExpired)
    }

    function View(): Tracker
      reads this
    {
      Tracker(Core(AttemptView(), SessionsView()), StopView())
    }

    constructor ()
      ensures View() == FRESH
    {
      phase, lastSession, observed, ignoreRetained, ignoredSession := Idle, 0, false, false, 0;
      waitingForSession, failed, attempting, sawRunning, grace := false, false, false, false, 0;
      stopRequested, stopDelivered, stopRunning, stopRunningSince, stopExpired := false, false, false, 0, false;
    }

    method NoteStartRequested()
      modifies this
      ensures View() == Started(old(View()))
    {
      observed := true;
      ignoreRetained := false;
      waitingForSession := false;
      failed := false;
      attempting := true;
      sawRunning := false;
      grace := START_GRACE_TICKS;
      phase := Starting;
      ClearStopRequest();
    }

    method NoteStartRequestedAfter(last: nat)
      modifies this
      ensures View() == StartedAfter(old(View()), last)
    {
      NoteStartRequested();
      lastSession := last;
      waitingForSession := true;
    }

    method NoteRetryRequested(last: nat, service: Service) returns (accepted: bool)
      modifies this
      ensures accepted <==> !Refuses(service)
      ensures View() == Applied(old(View()), Retry(last, service))
    {
      if service != Unread && service != Unnamed && service != IDLE {
        return false;
      }
      NoteStartRequestedAfter(last);
      accepted := true;
    }

    method UpdateRecord(service: Service, engineRunning: bool, session: nat, reason: Reason, now: nat)
      returns (published: Phase)
      modifies this
      ensures View() == Polled(old(View()), Record(service, engineRunning, session, reason, now))
      ensures published == phase
    {
      var folded := FoldOneRecord(service, engineRunning, session, reason);
      published := HoldStop(service, folded, now);
    }

    method UpdateState(service: Service, engineRunning: bool, now: nat) returns (published: Phase)
      modifies this
      ensures View() == Polled(old(View()), StateOnly(service, engineRunning, now))
      ensures published == phase
    {
      var folded := FoldOneState(service, engineRunning);
      published := HoldStop(service, folded, now);
    }

    method NoteStopRequested(now: nat) returns (taken: bool)
      modifies this
      ensures taken == TakesStop(old(View()))
      ensures View() == StopRequested(old(View()), now)
    {
      if stopRequested || (phase != Starting && phase != Running) {
        return false;
      }
      stopRequested := true;
      stopDelivered := false;
      stopRunning := phase == Running;
      stopRunningSince := now;
      phase := Stopping;
      taken := true;
    }

    method TakeStopExpired() returns (wasExpired: bool)
      modifies this
      ensures wasExpired == old(stopExpired)
      ensures View() == Applied(old(View()), TakeExpired)
    {
      wasExpired := stopExpired;
      stopExpired := false;
    }

    method NoteStartFailed()
      modifies this
      ensures View() == StartFailed(old(View()))
    {
      failed := true;
      attempting := false;
      sawRunning := false;
      grace := 0;
      phase := Failed;
      ClearStopRequest();
    }

    method AcknowledgeFailure(session: nat, service: Service) returns (dismissed: bool)
      modifies this
      ensures dismissed == TakesAcknowledgement(old(View()), service)
      ensures View() == Acknowledged(old(View()), session, service)
    {
      if phase != Failed || service != IDLE {
        return false;
      }
      Reset();
      var published := UpdateRecord(service, false, session, Pending, 0);
      dismissed := true;
    }

    method Reset()
      modifies this
      ensures View() == FRESH
    {
      ResetAttempt();
      observed, lastSession, ignoreRetained, ignoredSession, waitingForSession := false, 0, false, 0, false;
      ClearStopRequest();
      stopExpired := false;
    }

    method ResetAttempt()
      modifies `phase, `failed, `attempting, `sawRunning, `grace
      ensures AttemptView() == FRESH.core.attempt
    {
      phase, failed, attempting, sawRunning, grace := Idle, false, false, false, 0;
    }

    method FoldOneRecord(service: Service, engineRunning: bool, session: nat, reason: Reason) returns (folded: Phase)
      modifies this
      ensures Core(AttemptView(), SessionsView())
              == FoldRecord(Core(old(AttemptView()), old(SessionsView())), service, engineRunning, session, reason)
      ensures StopView() == old(StopView())
      ensures folded == phase
    {
      hide FoldObserved, Observe;
      ObserveFirst(service, session);
      folded := FoldOneObserved(service, engineRunning, session, reason);
    }

    method FoldOneObserved(service: Service, engineRunning: bool, session: nat, reason: Reason) returns (folded: Phase)
      modifies this
      ensures Core(AttemptView(), SessionsView())
              == FoldObserved(Core(old(AttemptView()), old(SessionsView())), service, engineRunning, session, reason)
      ensures StopView() == old(StopView())
      ensures folded == phase
    {
      hide FoldState, FoldIdle, FoldCurrent;
      if ignoreRetained && session == ignoredSession {
        folded := FoldOneState(service, engineRunning);
        return;
      }
      if waitingForSession && session <= lastSession {
        folded := FoldOneIdle();
        return;
      }
      if session < lastSession {
        return phase;
      }
      if session > lastSession {
        lastSession := session;
        waitingForSession := false;
        failed := false;
      }
      folded := FoldOneCurrent(service, engineRunning, reason);
    }

    method FoldOneIdle() returns (folded: Phase)
      modifies this
      ensures AttemptView() == FoldIdle(old(AttemptView()))
      ensures SessionsView() == old(SessionsView()) && StopView() == old(StopView())
      ensures folded == phase
    {
      phase := IdlePhase();
      folded := phase;
    }

    method FoldOneCurrent(service: Service, engineRunning: bool, reason: Reason) returns (folded: Phase)
      modifies this
      ensures AttemptView() == FoldCurrent(old(AttemptView()), service, engineRunning, reason)
      ensures SessionsView() == old(SessionsView()) && StopView() == old(StopView())
      ensures folded == phase
    {
      if reason == RunFailed || reason == Completed || reason == Cancelled {
        folded := TerminalPhase(service, reason);
      } else {
        folded := FoldOneState(service, engineRunning);
      }
    }

    method ObserveFirst(service: Service, session: nat)
      modifies this
      ensures SessionsView() == Observe(old(SessionsView()), service, session)
      ensures AttemptView() == old(AttemptView()) && StopView() == old(StopView())
    {
      if !observed {
        observed := true;
        lastSession := session;
        if service == Unread || service == IDLE {
          ignoredSession := session;
          ignoreRetained := true;
        }
      }
    }

    method FoldOneState(service: Service, engineRunning: bool) returns (folded: Phase)
      modifies this
      ensures AttemptView() == FoldState(old(AttemptView()), service, engineRunning)
      ensures SessionsView() == old(SessionsView()) && StopView() == old(StopView())
      ensures folded == phase
    {
      var name := if service != Unread then service else IDLE;
      if name == STARTING {
        attempting := true;
        grace := 0;
        phase := Starting;
      } else if name == RUNNING {
        attempting := true;
        grace := 0;
        if engineRunning {
          sawRunning := true;
          phase := Running;
        } else {
          phase := if sawRunning then Stopping else Starting;
        }
      } else if name == STOPPING {
        grace := 0;
        phase := Stopping;
      } else {
        phase := IdlePhase();
      }
      folded := phase;
    }

    method HoldStop(service: Service, folded: Phase, now: nat) returns (published: Phase)
      requires folded == phase
      modifies this
      ensures View() == Held(old(StopView()), old(View()).core, service, now)
      ensures published == phase
    {
      if !stopRequested {
        return folded;
      }
      if folded == Idle || folded == Failed {
        ClearStopRequest();
        return folded;
      }
      var running := service == RUNNING;
      if service == STOPPING {
        stopDelivered := true;
      }
      if !running {
        stopRunning := false;
      } else if !stopDelivered {
        if !stopRunning {
          stopRunning := true;
          stopRunningSince := now;
        } else if now >= stopRunningSince && now - stopRunningSince >= STOP_GRACE_MS {
          ClearStopRequest();
          stopExpired := true;
          return folded;
        }
      }
      phase := Stopping;
      published := phase;
    }

    method ClearStopRequest()
      modifies `stopRequested, `stopDelivered, `stopRunning, `stopRunningSince
      ensures StopView() == Cleared(old(StopView()))
      ensures AttemptView() == old(AttemptView()) && SessionsView() == old(SessionsView())
    {
      stopRequested, stopDelivered, stopRunning, stopRunningSince := false, false, false, 0;
    }

    method TerminalPhase(service: Service, reason: Reason) returns (folded: Phase)
      requires reason != Pending
      modifies this
      ensures AttemptView() == FoldTerminal(old(AttemptView()), service, reason)
      ensures SessionsView() == old(SessionsView()) && StopView() == old(StopView())
      ensures folded == phase
    {
      if reason == RunFailed {
        var _ := LatchFailure();
      } else {
        attempting := false;
        sawRunning := false;
        grace := 0;
      }
      var serviceIdle := service == IDLE;
      phase := if serviceIdle then (if failed then Failed else Idle) else Stopping;
      folded := phase;
    }

    method IdlePhase() returns (folded: Phase)
      modifies this
      ensures AttemptView() == FoldIdle(old(AttemptView())).(phase := old(phase))
      ensures folded == FoldIdle(old(AttemptView())).phase
      ensures SessionsView() == old(SessionsView()) && StopView() == old(StopView())
    {
      if grace > 0 {
        grace := grace - 1;
        if grace > 0 {
          return Starting;
        }
        folded := LatchFailure();
        return;
      }
      if attempting && !sawRunning {
        folded := LatchFailure();
        return;
      }
      attempting := false;
      sawRunning := false;
      folded := if failed then Failed else Idle;
    }

    method LatchFailure() returns (folded: Phase)
      modifies this
      ensures AttemptView() == LATCHED.(phase := old(phase))
      ensures SessionsView() == old(SessionsView()) && StopView() == old(StopView())
      ensures folded == Failed
    {
      failed := true;
      attempting := false;
      sawRunning := false;
      grace := 0;
      folded := Failed;
    }
  }
}
