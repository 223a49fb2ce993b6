/** The native lifecycle calls as atomic steps of any number of threads: nativeInit, nativeConfigure, nativeRun (with
    the engine's flag reset and start hook), nativeStop and nativeDestroy. A step is one access to shared state; what
    happens under g_lock is visible only through the atomics it sets, so those are separate steps. */
module JniLifecycle {
  import opened Wrappers

  /** The shipped protocol, or one with a part of it left out. */
  datatype Design = Design(latchFirst: bool, hookReraises: bool, stopsAvoidConfigure: bool)

  const SHIPPED := Design(true, true, true)

  datatype Reason = Pending | Completed | Cancelled | Failed
  datatype Status = Status(session: nat, initialized: bool, reason: Reason, code: int)

  const STATUS_ERROR: int := -1
  const STATUS_BAD_STATE: int := -2

  /** What a run took with it: the allocation it works on and the session it reports for. */
  datatype Claim = Claim(generation: nat, session: nat)

  datatype Pc =
    | Outside
    | InitHeld
    | InitAllocated
    | ConfigureHeld(session: nat)
    | ConfigureBegun
    | ConfigureExitCleared
    | ConfigureLatchCleared
    | DestroyHeld
    | DestroyUnpublished
    | RunClaimed(claim: Claim)
    | RunReset(claim: Claim)
    | HookMarking(claim: Claim)
    | HookSecond(claim: Claim)
    | HookRaising(claim: Claim)
    | Decoding(claim: Claim)
    | RunEnded(claim: Claim, rc: int)
    | RunRecorded(claim: Claim)
    | StopAdmitted
    | StopHalfway

  datatype Call = Init | Configure(session: nat) | Run | Stop | Destroy

  /** What a scheduled thread does: enter a call, or take its next step with whatever outcome that has. */
  datatype Choice = Enter(call: Call) | Proceed(ok: bool, clean: bool, rc: int)

  /** g_opts/g_state as an allocation number, g_configured, g_running with the thread that set it, g_initialized. */
  datatype Engine = Engine(opts: Option<nat>, generations: nat, configured: bool, runner: Option<nat>,
                           initialized: bool)
  /** g_stop_requested and the process exit flag; stopped: a stop has completed since configure last cleared them. */
  datatype Flags = Flags(latch: bool, exit: bool, stopped: bool)
  datatype Shared = Shared(lockOwner: Option<nat>, engine: Engine, flags: Flags, status: Status)
  datatype State = State(pcs: seq<Pc>, shared: Shared)

  function Initial(n: nat): State {
    State(seq(n, _ => Outside),
          Shared(None, Engine(None, 0, false, None, false), Flags(false, false, false), Status(0, false, Pending, 0)))
  }

  predicate InStop(pc: Pc) {
    pc.StopAdmitted? || pc.StopHalfway?
  }

  predicate InConfigure(pc: Pc) {
    pc.ConfigureHeld? || pc.ConfigureBegun? || pc.ConfigureExitCleared? || pc.ConfigureLatchCleared?
  }

  predicate InDestroy(pc: Pc) {
    pc.DestroyHeld? || pc.DestroyUnpublished?
  }

  predicate HoldsLock(pc: Pc) {
    InConfigure(pc) || InDestroy(pc) || pc.InitHeld? || pc.InitAllocated?
  }

  /** From its claim until it gives the engine up. */
  predicate InRun(pc: Pc) {
    pc.RunClaimed? || pc.RunReset? || pc.HookMarking? || pc.HookSecond? || pc.HookRaising? || pc.Decoding?
    || pc.RunEnded? || pc.RunRecorded?
  }

  predicate NoneStopping(s: State) {
    forall t :: 0 <= t < |s.pcs| ==> !InStop(s.pcs[t])
  }

  predicate NoneConfiguring(s: State) {
    forall t :: 0 <= t < |s.pcs| ==> !InConfigure(s.pcs[t])
  }

  function Finished(st: Status, code: int, cancelled: bool): Status {
    st.(code := code, reason := if cancelled then Cancelled else if code == 0 then Completed else Failed)
  }

  /** A run is refused without an engine, unconfigured, or while another has it. */
  predicate RunRefused(e: Engine) {
    e.opts.None? || !e.configured || e.runner.Some?
  }

  /** Thread t, outside, enters a call other than nativeStop. */
  function Locking(sh: Shared, t: nat, call: Call): (Pc, Shared) {
    var e := sh.engine;
    if sh.lockOwner.Some? then (Outside, sh)
    else
      match call
      case Init => if e.opts.Some? then (Outside, sh) else (InitHeld, sh.(lockOwner := Some(t)))
      case Configure(session) =>
        if e.opts.None? || e.runner.Some? then (Outside, sh) else (ConfigureHeld(session), sh.(lockOwner := Some(t)))
      case Run =>
        if !RunRefused(e) then
          (RunClaimed(Claim(e.opts.value, sh.status.session)), sh.(engine := e.(runner := Some(t))))
        else if e.runner.Some? then (Outside, sh)
        else (Outside, sh.(status := Finished(sh.status, STATUS_BAD_STATE, false)))
      case Destroy => if e.runner.Some? then (Outside, sh) else (DestroyHeld, sh.(lockOwner := Some(t)))
      case Stop => (Outside, sh)
  }

  /** nativeInit and nativeDestroy under the lock. */
  function Allocating(pc: Pc, sh: Shared, ok: bool): (Pc, Shared) {
    var e := sh.engine;
    match pc
    case InitHeld =>
      if ok then
        (InitAllocated,
         sh.(engine := Engine(Some(e.generations), e.generations + 1, false, e.runner, e.initialized)))
      else (Outside, sh.(lockOwner := None))
    case InitAllocated => (Outside, sh.(lockOwner := None, engine := e.(initialized := true)))
    case DestroyHeld => (DestroyUnpublished, sh.(engine := e.(initialized := false)))
    case DestroyUnpublished => (Outside, sh.(lockOwner := None, engine := e.(opts := None, configured := false)))
    case _ => (pc, sh)
  }

  /** nativeConfigure under the lock. */
  function Configuring(pc: Pc, sh: Shared, ok: bool, clean: bool): (Pc, Shared) {
    match pc
    case ConfigureHeld(session) => (ConfigureBegun, sh.(status := Status(session, false, Pending, 0)))
    case ConfigureBegun =>
      if ok then (ConfigureExitCleared, sh.(flags := sh.flags.(exit := false, stopped := false)))
      else (Outside, sh.(lockOwner := None))
    case ConfigureExitCleared => (ConfigureLatchCleared, sh.(flags := sh.flags.(latch := false)))
    case ConfigureLatchCleared =>
      (Outside, Shared(None, sh.engine.(configured := ok), sh.flags,
                       if ok || clean then sh.status else Finished(sh.status, STATUS_ERROR, false)))
    case _ => (pc, sh)
  }

  /** nativeRun after its claim: the engine's reset, the start hook, the decode loop and the recorded result. */
  function Running(d: Design, pc: Pc, sh: Shared, ok: bool, rc: int): (Pc, Shared) {
    match pc
    case RunClaimed(k) =>
      if ok then (RunReset(k), sh.(flags := sh.flags.(exit := false))) else (RunEnded(k, 1), sh)
    case RunReset(k) => (if !ok then RunEnded(k, 1) else if sh.flags.latch then HookSecond(k) else HookMarking(k), sh)
    case HookMarking(k) => (HookSecond(k), sh.(status := sh.status.(initialized := true)))
    case HookSecond(k) => (if sh.flags.latch && d.hookReraises then HookRaising(k) else Decoding(k), sh)
    case HookRaising(k) => (Decoding(k), sh.(flags := sh.flags.(exit := true)))
    case Decoding(k) => (RunEnded(k, rc), sh)
    case RunEnded(k, code) => (RunRecorded(k), sh.(status := Finished(sh.status, code, sh.flags.latch)))
    case RunRecorded(k) =>
      if sh.lockOwner.Some? then (pc, sh)
      else (Outside, sh.(engine := sh.engine.(runner := None, configured := false)))
    case _ => (pc, sh)
  }

  function Stopping(d: Design, pc: Pc, f: Flags): (Pc, Flags) {
    match pc
    case StopAdmitted => (StopHalfway, if d.latchFirst then f.(latch := true) else f.(exit := true))
    case StopHalfway => (Outside, if d.latchFirst then Flags(f.latch, true, true) else Flags(true, f.exit, true))
    case _ => (pc, f)
  }

  /** What a thread at pc makes of the shared state in its next step. */
  function Local(d: Design, t: nat, pc: Pc, sh: Shared, c: Choice): (Pc, Shared) {
    if c.Enter? then
      if !pc.Outside? then (pc, sh)
      else if c.call.Stop? then (if sh.engine.initialized then StopAdmitted else Outside, sh)
      else Locking(sh, t, c.call)
    else if InStop(pc) then
      var (after, flags) := Stopping(d, pc, sh.flags);
      (after, sh.(flags := flags))
    else if InConfigure(pc) then Configuring(pc, sh, c.ok, c.clean)
    else if InRun(pc) then Running(d, pc, sh, c.ok, c.rc)
    else Allocating(pc, sh, c.ok)
  }

  /** With the service rejecting stops while it configures, and configuring only between stops. */
  predicate Admitted(d: Design, s: State, c: Choice) {
    d.stopsAvoidConfigure && c.Enter? ==>
      (c.call.Stop? ==> NoneConfiguring(s)) && (c.call.Configure? ==> NoneStopping(s))
  }

  /** One scheduled step; a thread that cannot take it stays where it is. */
  function Step(d: Design, s: State, t: nat, c: Choice): (r: State)
    ensures |r.pcs| == |s.pcs|
  {
    if t >= |s.pcs| || !Admitted(d, s, c) then s
    else
      var (pc, shared) := Local(d, t, s.pcs[t], s.shared, c);
      State(s.pcs[t := pc], shared)
  }

  function Exec(d: Design, n: nat, schedule: seq<(nat, Choice)>): (s: State)
    ensures |s.pcs| == n
  {
    if schedule == [] then Initial(n)
    else
      var last := schedule[|schedule| - 1];
      Step(d, Exec(d, n, schedule[..|schedule| - 1]), last.0, last.1)
  }

  ghost predicate Reaches(d: Design, s: State) {
    exists n: nat, schedule: seq<(nat, Choice)> :: Exec(d, n, schedule) == s
  }

  // ---- Engine ownership and attribution

  /** The run's status is its own session's: pending until its result is recorded, recorded from then on. */
  predicate Attributed(sh: Shared, pc: Pc)
    requires InRun(pc)
  {
    sh.status.session == pc.claim.session && (pc.RunRecorded? <==> sh.status.reason != Pending)
  }

  /** What holds of the shared state whoever steps next. */
  predicate SharedSound(sh: Shared) {
    var e := sh.engine;
    && (e.opts.None? ==> !e.configured && e.runner.None?)
    && (e.configured && e.runner.None? ==> sh.status.reason == Pending)
    && (e.runner.Some? ==> sh.lockOwner.None?)
  }

  /** What holds of one thread. */
  predicate ThreadSound(sh: Shared, t: nat, pc: Pc) {
    && (HoldsLock(pc) <==> sh.lockOwner == Some(t))
    && (InRun(pc) <==> sh.engine.runner == Some(t))
    && (InRun(pc) ==> sh.engine.opts == Some(pc.claim.generation) && Attributed(sh, pc))
    && (pc.InitHeld? ==> sh.engine.opts.None?)
    && (InConfigure(pc) ==> sh.engine.opts.Some? && (pc.ConfigureHeld? || sh.status.reason == Pending))
  }

  ghost predicate Sound(s: State) {
    SharedSound(s.shared) && forall t :: 0 <= t < |s.pcs| ==> ThreadSound(s.shared, t, s.pcs[t])
  }

  lemma LocalSound(d: Design, t: nat, pc: Pc, sh: Shared, c: Choice)
    requires SharedSound(sh) && ThreadSound(sh, t, pc)
    ensures SharedSound(Local(d, t, pc, sh, c).1) && ThreadSound(Local(d, t, pc, sh, c).1, t, Local(d, t, pc, sh, c).0)
  {
  }

  lemma OtherSound(d: Design, t: nat, pc: Pc, sh: Shared, c: Choice, u: nat, other: Pc)
    requires SharedSound(sh) && ThreadSound(sh, t, pc) && ThreadSound(sh, u, other) && t != u
    ensures ThreadSound(Local(d, t, pc, sh, c).1, u, other)
  {
  }

  /** In every interleaving, under every variant of the stop protocol: at most one run is active, its allocation is
      the one it claimed, and the status stays its session's from its claim to its recorded result. */
  lemma {:induction false} AlwaysSound(d: Design, n: nat, schedule: seq<(nat, Choice)>)
    ensures Sound(Exec(d, n, schedule))
    decreases |schedule|
  {
    if schedule != [] {
      hide Step, Sound;
      var before, last := schedule[..|schedule| - 1], schedule[|schedule| - 1];
      AlwaysSound(d, n, before);
      SoundStep(d, Exec(d, n, before), last.0, last.1);
    }
  }

  lemma SoundStep(d: Design, s: State, t: nat, c: Choice)
    requires Sound(s)
    ensures Sound(Step(d, s, t, c))
  {
    hide Local, SharedSound, ThreadSound;
    if t < |s.pcs| {
      LocalSound(d, t, s.pcs[t], s.shared, c);
      forall u | 0 <= u < |s.pcs| && u != t ensures ThreadSound(Local(d, t, s.pcs[t], s.shared, c).1, u, s.pcs[u]) {
        OtherSound(d, t, s.pcs[t], s.shared, c, u, s.pcs[u]);
      }
    }
  }

  /** What soundness says of the engine: one run at a time, with its allocation in place and no lock holder inside
      configure, init or destroy, and its status its own. */
  lemma OneRunOwnsTheEngine(d: Design, n: nat, schedule: seq<(nat, Choice)>, t: nat)
    requires t < n && InRun(Exec(d, n, schedule).pcs[t])
    ensures var s := Exec(d, n, schedule);
            && (forall u :: 0 <= u < n && u != t ==> !InRun(s.pcs[u]) && !HoldsLock(s.pcs[u]))
            && s.shared.engine.opts == Some(s.pcs[t].claim.generation)
            && s.shared.status.session == s.pcs[t].claim.session
            && (s.shared.status.reason == Pending <==> !s.pcs[t].RunRecorded?)
  {
    hide Step;
    AlwaysSound(d, n, schedule);
    var s := Exec(d, n, schedule);
    assert ThreadSound(s.shared, t, s.pcs[t]);
    forall u | 0 <= u < n && u != t ensures !InRun(s.pcs[u]) && !HoldsLock(s.pcs[u]) {
      assert ThreadSound(s.shared, u, s.pcs[u]);
    }
  }

  // ---- How long a result is retained

  /** nativeConfigure begins a new status. */
  predicate BeginsStatus(s: State, step: (nat, Choice)) {
    step.0 < |s.pcs| && s.pcs[step.0].ConfigureHeld? && step.1.Proceed?
  }

  /** A run is refused with the lock free and no run active. */
  predicate RefusedIdle(s: State, step: (nat, Choice)) {
    && step.0 < |s.pcs| && s.pcs[step.0].Outside? && step.1 == Enter(Run)
    && s.shared.lockOwner.None? && s.shared.engine.runner.None?
  }

  function Refused(st: Status): Status {
    st.(code := STATUS_BAD_STATE, reason := Failed)
  }

  /** While a thread runs, no other's step writes the status or takes the engine away. */
  lemma OthersLeaveRunAlone(d: Design, s: State, t: nat, step: (nat, Choice))
    requires Sound(s) && t < |s.pcs| && InRun(s.pcs[t]) && step.0 != t
    ensures var r := Step(d, s, step.0, step.1);
            && r.pcs[t] == s.pcs[t] && r.shared.status == s.shared.status
            && r.shared.engine.opts == s.shared.engine.opts && r.shared.engine.runner == Some(t)
  {
    hide Local, SharedSound;
    if step.0 < |s.pcs| {
      assert ThreadSound(s.shared, step.0, s.pcs[step.0]) && ThreadSound(s.shared, t, s.pcs[t]);
      OtherLeavesRunAlone(d, step.0, s.pcs[step.0], s.shared, step.1, t);
    }
  }

  lemma OtherLeavesRunAlone(d: Design, u: nat, pc: Pc, sh: Shared, c: Choice, t: nat)
    requires SharedSound(sh) && ThreadSound(sh, u, pc) && sh.engine.runner == Some(t) && u != t
    ensures var r := Local(d, u, pc, sh, c).1;
            r.status == sh.status && r.engine.opts == sh.engine.opts && r.engine.runner == Some(t)
  {
  }

  /** Through any schedule in which an active run's own thread takes no step, whatever is called meanwhile, duplicate
      runs with the rest, the run keeps its place, its engine and its status. */
  lemma {:induction false} ActiveRunUntouched(d: Design, n: nat, before: seq<(nat, Choice)>,
                                               after: seq<(nat, Choice)>, t: nat)
    requires t < n && InRun(Exec(d, n, before).pcs[t]) && forall k :: 0 <= k < |after| ==> after[k].0 != t
    ensures var s, r := Exec(d, n, before), Exec(d, n, before + after);
            && r.pcs[t] == s.pcs[t] && r.shared.status == s.shared.status
            && r.shared.engine.opts == s.shared.engine.opts && r.shared.engine.runner == Some(t)
    decreases |after|
  {
    hide Step, Exec, Sound, InRun;
    if after == [] {
      assert before + after == before;
      RunnerIsSet(d, n, before, t);
    } else {
      var k := |after| - 1;
      ActiveRunUntouched(d, n, before, after[..k], t);
      AlwaysSound(d, n, before + after[..k]);
      ExecNext(d, n, before, after);
      OthersLeaveRunAlone(d, Exec(d, n, before + after[..k]), t, after[k]);
    }
  }

  lemma RunnerIsSet(d: Design, n: nat, schedule: seq<(nat, Choice)>, t: nat)
    requires t < n && InRun(Exec(d, n, schedule).pcs[t])
    ensures Exec(d, n, schedule).shared.engine.runner == Some(t)
  {
    hide Exec, InRun;
    AlwaysSound(d, n, schedule);
    assert ThreadSound(Exec(d, n, schedule).shared, t, Exec(d, n, schedule).pcs[t]);
  }

  /** With a result recorded, no thread writes the status but one that begins a new one or is refused a run. */
  lemma LocalRetains(d: Design, t: nat, pc: Pc, sh: Shared, c: Choice)
    requires SharedSound(sh) && ThreadSound(sh, t, pc) && sh.status.reason != Pending
    ensures var after := Local(d, t, pc, sh, c).1.status;
            if pc.ConfigureHeld? && c.Proceed? then true
            else if pc.Outside? && c == Enter(Run) && sh.lockOwner.None? && sh.engine.runner.None?
            then after == Refused(sh.status)
            else after == sh.status
  {
  }

  lemma StepRetains(d: Design, s: State, step: (nat, Choice))
    requires Sound(s) && s.shared.status.reason != Pending && !BeginsStatus(s, step)
    ensures Step(d, s, step.0, step.1).shared.status ==
            if RefusedIdle(s, step) then Refused(s.shared.status) else s.shared.status
  {
    hide Local, SharedSound, ThreadSound;
    if step.0 < |s.pcs| {
      LocalRetains(d, step.0, s.pcs[step.0], s.shared, step.1);
    }
  }

  function StatusAfter(d: Design, n: nat, schedule: seq<(nat, Choice)>): Status {
    Exec(d, n, schedule).shared.status
  }

  /** No step of the second schedule begins a new status. */
  ghost predicate NoneBegin(d: Design, n: nat, before: seq<(nat, Choice)>, after: seq<(nat, Choice)>) {
    forall k :: 0 <= k < |after| ==> !BeginsStatus(Exec(d, n, before + after[..k]), after[k])
  }

  /** No step of the second schedule is a run refused with no run active. */
  ghost predicate NoneRefused(d: Design, n: nat, before: seq<(nat, Choice)>, after: seq<(nat, Choice)>) {
    forall k :: 0 <= k < |after| ==> !RefusedIdle(Exec(d, n, before + after[..k]), after[k])
  }

  lemma ExecNext(d: Design, n: nat, before: seq<(nat, Choice)>, after: seq<(nat, Choice)>)
    requires after != []
    ensures var k := |after| - 1;
            Exec(d, n, before + after) == Step(d, Exec(d, n, before + after[..k]), after[k].0, after[k].1)
  {
    hide Step;
    var k := |after| - 1;
    var all := before + after;
    assert all[..|all| - 1] == before + after[..k] && all[|all| - 1] == after[k];
  }

  /** Until a configure begins a new status, a recorded result stands, or becomes the refused one at the first run
      refused with no run active and stands as that. */
  lemma {:induction false} ResultUntilConfigure(d: Design, n: nat, before: seq<(nat, Choice)>,
                                                 after: seq<(nat, Choice)>)
    requires StatusAfter(d, n, before).reason != Pending && NoneBegin(d, n, before, after)
    ensures StatusAfter(d, n, before + after) ==
            if NoneRefused(d, n, before, after) then StatusAfter(d, n, before) else Refused(StatusAfter(d, n, before))
    decreases |after|
  {
    hide Step, Exec, Sound, BeginsStatus, RefusedIdle;
    if after == [] {
      assert before + after == before;
    } else {
      var k := |after| - 1;
      var rest := after[..k];
      assert forall i :: 0 <= i < k ==> after[..i] == rest[..i] && after[i] == rest[i];
      ResultUntilConfigure(d, n, before, rest);
      AlwaysSound(d, n, before + rest);
      ExecNext(d, n, before, after);
      StepRetains(d, Exec(d, n, before + rest), after[k]);
      assert NoneRefused(d, n, before, after)
        <==> NoneRefused(d, n, before, rest) && !RefusedIdle(Exec(d, n, before + rest), after[k]);
    }
  }

  /** A recorded result is retained through a schedule in which no configure begins exactly when no run is refused in
      it with no run active, or the result was a refused run's already. */
  lemma ResultRetainedExactly(d: Design, n: nat, before: seq<(nat, Choice)>, after: seq<(nat, Choice)>)
    requires StatusAfter(d, n, before).reason != Pending && NoneBegin(d, n, before, after)
    ensures StatusAfter(d, n, before + after) == StatusAfter(d, n, before) <==>
            NoneRefused(d, n, before, after) || StatusAfter(d, n, before) == Refused(StatusAfter(d, n, before))
  {
    hide Exec, NoneRefused, NoneBegin;
    ResultUntilConfigure(d, n, before, after);
  }

  // ---- No stop is lost

  /** A stop that completed since configure shows in the exit flag wherever the decode loop runs. */
  ghost predicate StopsShow(s: State) {
    forall t :: 0 <= t < |s.pcs| && s.pcs[t].Decoding? && s.shared.flags.stopped ==> s.shared.flags.exit
  }

  predicate FlagsKept(f: Flags, pc: Pc) {
    && (f.stopped ==> f.latch)
    && (pc.Decoding? && f.stopped ==> f.exit)
    && (pc.StopHalfway? ==> f.latch)
    && (pc.ConfigureExitCleared? || pc.ConfigureLatchCleared? ==> !f.stopped)
  }

  /** Stops and configure keep apart. */
  predicate Apart(a: Pc, b: Pc) {
    !(InStop(a) && InConfigure(b)) && !(InStop(b) && InConfigure(a))
  }

  ghost predicate StopsKept(s: State) {
    && (s.shared.flags.stopped ==> s.shared.flags.latch)
    && (forall t :: 0 <= t < |s.pcs| ==> FlagsKept(s.shared.flags, s.pcs[t]))
    && (forall t, u :: 0 <= t < |s.pcs| && 0 <= u < |s.pcs| ==> Apart(s.pcs[t], s.pcs[u]))
  }

  lemma LocalFlags(t: nat, pc: Pc, sh: Shared, c: Choice)
    requires FlagsKept(sh.flags, pc)
    ensures var (after, r) := Local(SHIPPED, t, pc, sh, c);
            FlagsKept(r.flags, after)
            && (InStop(after) && !InStop(pc) ==> c == Enter(Stop))
            && (InConfigure(after) && !InConfigure(pc) ==> c.Enter? && c.call.Configure?)
  {
  }

  lemma OtherFlags(t: nat, pc: Pc, sh: Shared, c: Choice, u: nat, other: Pc)
    requires SharedSound(sh) && ThreadSound(sh, t, pc) && ThreadSound(sh, u, other) && t != u && Apart(pc, other)
    requires FlagsKept(sh.flags, pc) && FlagsKept(sh.flags, other)
    ensures FlagsKept(Local(SHIPPED, t, pc, sh, c).1.flags, other)
  {
  }

  lemma StopsStep(s: State, t: nat, c: Choice)
    requires Sound(s) && StopsKept(s)
    ensures StopsKept(Step(SHIPPED, s, t, c))
  {
    hide Local, SharedSound, ThreadSound;
    if t < |s.pcs| && Admitted(SHIPPED, s, c) {
      var pc := s.pcs[t];
      LocalFlags(t, pc, s.shared, c);
      var (after, r) := Local(SHIPPED, t, pc, s.shared, c);
      forall u | 0 <= u < |s.pcs| && u != t ensures FlagsKept(r.flags, s.pcs[u]) && Apart(after, s.pcs[u]) {
        assert Apart(pc, s.pcs[u]);
        OtherFlags(t, pc, s.shared, c, u, s.pcs[u]);
      }
    }
  }

  lemma {:induction false} ShippedKeepsStops(n: nat, schedule: seq<(nat, Choice)>)
    ensures StopsKept(Exec(SHIPPED, n, schedule))
    decreases |schedule|
  {
    if schedule != [] {
      hide Step, Sound, StopsKept;
      var before, last := schedule[..|schedule| - 1], schedule[|schedule| - 1];
      ShippedKeepsStops(n, before);
      AlwaysSound(SHIPPED, n, before);
      StopsStep(Exec(SHIPPED, n, before), last.0, last.1);
    } else {
      NoStopsYet(n);
    }
  }

  lemma KeptMeansShown(s: State)
    requires StopsKept(s)
    ensures StopsShow(s)
  {
  }

  lemma NoStopsYet(n: nat)
    ensures StopsKept(Initial(n))
  {
  }

  function Two(a: Pc, b: Pc, sh: Shared): State {
    State([a, b], sh)
  }

  predicate FreeToEnter(d: Design, a: Pc, b: Pc, c: Choice) {
    d.stopsAvoidConfigure && c.Enter? ==>
      (c.call.Stop? ==> !InConfigure(a) && !InConfigure(b)) && (c.call.Configure? ==> !InStop(a) && !InStop(b))
  }

  lemma Extended(d: Design, s: State, t: nat, c: Choice)
    requires Reaches(d, s)
    ensures Reaches(d, Step(d, s, t, c))
  {
    hide Step;
    var n: nat, schedule: seq<(nat, Choice)> :| Exec(d, n, schedule) == s;
    var longer := schedule + [(t, c)];
    assert longer[..|longer| - 1] == schedule;
    assert Exec(d, n, longer) == Step(d, s, t, c);
  }

  /** Thread 0 of two steps. */
  lemma First(d: Design, a: Pc, b: Pc, sh: Shared, c: Choice, to: Pc, after: Shared)
    requires Reaches(d, Two(a, b, sh)) && FreeToEnter(d, a, b, c) && Local(d, 0, a, sh, c) == (to, after)
    ensures Reaches(d, Two(to, b, after))
  {
    hide Local;
    Extended(d, Two(a, b, sh), 0, c);
    assert [a, b][0 := to] == [to, b];
  }

  /** Thread 1 of two steps. */
  lemma Second(d: Design, a: Pc, b: Pc, sh: Shared, c: Choice, to: Pc, after: Shared)
    requires Reaches(d, Two(a, b, sh)) && FreeToEnter(d, a, b, c) && Local(d, 1, b, sh, c) == (to, after)
    ensures Reaches(d, Two(a, to, after))
  {
    hide Local;
    Extended(d, Two(a, b, sh), 1, c);
    assert [a, b][1 := to] == [a, to];
  }

  const GO := Proceed(true, true, 0)
  const CLAIM := Claim(0, 7)

  /** An initialised engine at session 7, its lock held by thread 0 or free, configured and run by thread 0 or not. */
  function Sessioned(locked: bool, configured: bool, running: bool, initialized: bool, f: Flags): Shared {
    Shared(if locked then Some(0) else None, Engine(Some(0), 1, configured, if running then Some(0) else None, true), f,
           Status(7, initialized, Pending, 0))
  }

  const DOWN := Flags(false, false, false)

  lemma Initialised(d: Design)
    ensures Reaches(d, Two(Outside, Outside,
                           Shared(None, Engine(Some(0), 1, false, None, true), DOWN, Status(0, false, Pending, 0))))
  {
    hide Reaches;
    StartsOutside(d);
    var sh := Shared(None, Engine(None, 0, false, None, false), DOWN, Status(0, false, Pending, 0));
    var held := sh.(lockOwner := Some(0));
    First(d, Outside, Outside, sh, Enter(Init), InitHeld, held);
    var ready := held.(engine := Engine(Some(0), 1, false, None, false));
    First(d, InitHeld, Outside, held, GO, InitAllocated, ready);
    First(d, InitAllocated, Outside, ready, GO, Outside,
          Shared(None, Engine(Some(0), 1, false, None, true), DOWN, Status(0, false, Pending, 0)));
  }

  lemma StartsOutside(d: Design)
    ensures Reaches(d, Two(Outside, Outside,
                           Shared(None, Engine(None, 0, false, None, false), DOWN, Status(0, false, Pending, 0))))
  {
    assert Exec(d, 2, []) == Initial(2);
    assert Initial(2).pcs == [Outside, Outside];
  }

  /** Thread 0 in nativeConfigure with the exit flag just cleared. */
  lemma MidConfigure(d: Design)
    ensures Reaches(d, Two(ConfigureExitCleared, Outside, Sessioned(true, false, false, false, DOWN)))
  {
    hide Reaches;
    Initialised(d);
    var sh := Shared(None, Engine(Some(0), 1, false, None, true), DOWN, Status(0, false, Pending, 0));
    First(d, Outside, Outside, sh, Enter(Configure(7)), ConfigureHeld(7), sh.(lockOwner := Some(0)));
    First(d, ConfigureHeld(7), Outside, sh.(lockOwner := Some(0)), GO, ConfigureBegun,
          Sessioned(true, false, false, false, DOWN));
    First(d, ConfigureBegun, Outside, Sessioned(true, false, false, false, DOWN), GO, ConfigureExitCleared,
          Sessioned(true, false, false, false, DOWN));
  }

  /** The rest of nativeConfigure and the claim of nativeRun, from whatever the flags were. */
  lemma ConfiguredAndClaimed(d: Design, f: Flags)
    requires Reaches(d, Two(ConfigureExitCleared, Outside, Sessioned(true, false, false, false, f)))
    ensures Reaches(d, Two(RunClaimed(CLAIM), Outside, Sessioned(false, true, true, false, f.(latch := false))))
  {
    hide Reaches;
    var g := f.(latch := false);
    First(d, ConfigureExitCleared, Outside, Sessioned(true, false, false, false, f), GO, ConfigureLatchCleared,
          Sessioned(true, false, false, false, g));
    First(d, ConfigureLatchCleared, Outside, Sessioned(true, false, false, false, g), GO, Outside,
          Sessioned(false, true, false, false, g));
    First(d, Outside, Outside, Sessioned(false, true, false, false, g), Enter(Run), RunClaimed(CLAIM),
          Sessioned(false, true, true, false, g));
  }

  /** From the claim through the engine's reset and a hook that finds no latch, into the decode loop. */
  lemma DecodesUnlatched(d: Design, other: Pc, f: Flags)
    requires !f.latch && Reaches(d, Two(RunClaimed(CLAIM), other, Sessioned(false, true, true, false, f)))
    ensures Reaches(d, Two(Decoding(CLAIM), other, Sessioned(false, true, true, true, f.(exit := false))))
  {
    hide Reaches;
    var g := f.(exit := false);
    First(d, RunClaimed(CLAIM), other, Sessioned(false, true, true, false, f), GO, RunReset(CLAIM),
          Sessioned(false, true, true, false, g));
    First(d, RunReset(CLAIM), other, Sessioned(false, true, true, false, g), GO, HookMarking(CLAIM),
          Sessioned(false, true, true, false, g));
    First(d, HookMarking(CLAIM), other, Sessioned(false, true, true, false, g), GO, HookSecond(CLAIM),
          Sessioned(false, true, true, true, g));
    First(d, HookSecond(CLAIM), other, Sessioned(false, true, true, true, g), GO, Decoding(CLAIM),
          Sessioned(false, true, true, true, g));
  }

  /** Raise before latching: the engine's reset and hook fit in between. */
  lemma RaiseFirstLosesStop(d: Design)
    requires !d.latchFirst
    ensures Reaches(d, Two(Decoding(CLAIM), Outside, Sessioned(false, true, true, true, Flags(true, false, true))))
  {
    hide Reaches;
    MidConfigure(d);
    ConfiguredAndClaimed(d, DOWN);
    Second(d, RunClaimed(CLAIM), Outside, Sessioned(false, true, true, false, DOWN), Enter(Stop), StopAdmitted,
           Sessioned(false, true, true, false, DOWN));
    Second(d, RunClaimed(CLAIM), StopAdmitted, Sessioned(false, true, true, false, DOWN), GO, StopHalfway,
           Sessioned(false, true, true, false, Flags(false, true, false)));
    DecodesUnlatched(d, StopHalfway, Flags(false, true, false));
    Second(d, Decoding(CLAIM), StopHalfway, Sessioned(false, true, true, true, DOWN), GO, Outside,
           Sessioned(false, true, true, true, Flags(true, false, true)));
  }

  /** A whole latch-first stop while thread 0 is at pc. */
  lemma StopsMeanwhile(d: Design, pc: Pc, sh: Shared)
    requires d.latchFirst && sh.engine.initialized && FreeToEnter(d, pc, Outside, Enter(Stop))
    requires Reaches(d, Two(pc, Outside, sh))
    ensures Reaches(d, Two(pc, Outside, sh.(flags := Flags(true, true, true))))
  {
    hide Reaches;
    Second(d, pc, Outside, sh, Enter(Stop), StopAdmitted, sh);
    Second(d, pc, StopAdmitted, sh, GO, StopHalfway, sh.(flags := sh.flags.(latch := true)));
    Second(d, pc, StopHalfway, sh.(flags := sh.flags.(latch := true)), GO, Outside,
           sh.(flags := Flags(true, true, true)));
  }

  /** No second raise in the hook: the engine's reset erases a stop that came before it. */
  lemma SilentHookLosesStop(d: Design)
    requires d.latchFirst && !d.hookReraises
    ensures Reaches(d, Two(Decoding(CLAIM), Outside, Sessioned(false, true, true, false, Flags(true, false, true))))
  {
    hide Reaches;
    var f, g := Flags(true, true, true), Flags(true, false, true);
    MidConfigure(d);
    ConfiguredAndClaimed(d, DOWN);
    StopsMeanwhile(d, RunClaimed(CLAIM), Sessioned(false, true, true, false, DOWN));
    First(d, RunClaimed(CLAIM), Outside, Sessioned(false, true, true, false, f), GO, RunReset(CLAIM),
          Sessioned(false, true, true, false, g));
    First(d, RunReset(CLAIM), Outside, Sessioned(false, true, true, false, g), GO, HookSecond(CLAIM),
          Sessioned(false, true, true, false, g));
    First(d, HookSecond(CLAIM), Outside, Sessioned(false, true, true, false, g), GO, Decoding(CLAIM),
          Sessioned(false, true, true, false, g));
  }

  /** A stop during nativeConfigure: its latch is cleared with the rest. */
  lemma OverlapLosesStop(d: Design)
    requires d.latchFirst && !d.stopsAvoidConfigure
    ensures Reaches(d, Two(Decoding(CLAIM), Outside, Sessioned(false, true, true, true, Flags(false, false, true))))
  {
    hide Reaches;
    MidConfigure(d);
    StopsMeanwhile(d, ConfigureExitCleared, Sessioned(true, false, false, false, DOWN));
    ConfiguredAndClaimed(d, Flags(true, true, true));
    DecodesUnlatched(d, Outside, Flags(false, true, true));
  }

  /** Thread 0 has configured, run to a clean end and left, and its result stands. */
  lemma Completes(d: Design)
    ensures Reaches(d, Two(Outside, Outside, Ended(Status(7, true, Completed, 0))))
  {
    hide Reaches;
    MidConfigure(d);
    ConfiguredAndClaimed(d, DOWN);
    DecodesUnlatched(d, Outside, DOWN);
    var sh := Sessioned(false, true, true, true, DOWN);
    var recorded := sh.(status := Status(7, true, Completed, 0));
    First(d, Decoding(CLAIM), Outside, sh, GO, RunEnded(CLAIM, 0), sh);
    First(d, RunEnded(CLAIM, 0), Outside, sh, GO, RunRecorded(CLAIM), recorded);
    First(d, RunRecorded(CLAIM), Outside, recorded, GO, Outside, Ended(Status(7, true, Completed, 0)));
  }

  /** The engine given up after a run of session 7, with this result. */
  function Ended(st: Status): Shared {
    Shared(None, Engine(Some(0), 1, false, None, true), DOWN, st)
  }

  /** So a completed run's result can be lost before the next configure: a second run, refused, overwrites it. */
  lemma CompletedResultOverwritten(d: Design)
    ensures Reaches(d, Two(Outside, Outside, Ended(Status(7, true, Completed, 0))))
    ensures Step(d, Two(Outside, Outside, Ended(Status(7, true, Completed, 0))), 1, Enter(Run))
            == Two(Outside, Outside, Ended(Status(7, true, Failed, STATUS_BAD_STATE)))
    ensures Reaches(d, Two(Outside, Outside, Ended(Status(7, true, Failed, STATUS_BAD_STATE))))
  {
    hide Reaches;
    Completes(d);
    var s := Two(Outside, Outside, Ended(Status(7, true, Completed, 0)));
    Extended(d, s, 1, Enter(Run));
    assert [Outside, Outside][1 := Outside] == [Outside, Outside];
  }

  lemma LostStop(sh: Shared)
    requires sh.flags.stopped && !sh.flags.exit
    ensures !StopsShow(Two(Decoding(CLAIM), Outside, sh))
  {
    assert Two(Decoding(CLAIM), Outside, sh).pcs[0].Decoding?;
  }

  /** No stop is lost in any interleaving exactly under the shipped protocol: latch before raising, raise again in the
      hook, and no stop while nativeConfigure runs. Each part is needed. */
  lemma NoStopLostIff(d: Design)
    ensures (forall s :: Reaches(d, s) ==> StopsShow(s)) <==> d == SHIPPED
  {
    if d == SHIPPED {
      forall s | Reaches(d, s) ensures StopsShow(s) {
        var n: nat, schedule: seq<(nat, Choice)> :| Exec(d, n, schedule) == s;
        ShippedKeepsStops(n, schedule);
        KeptMeansShown(s);
      }
    } else if !d.latchFirst {
      RaiseFirstLosesStop(d);
      LostStop(Sessioned(false, true, true, true, Flags(true, false, true)));
    } else if !d.hookReraises {
      SilentHookLosesStop(d);
      LostStop(Sessioned(false, true, true, false, Flags(true, false, true)));
    } else {
      OverlapLosesStop(d);
      LostStop(Sessioned(false, true, true, true, Flags(false, false, true)));
    }
  }
}
