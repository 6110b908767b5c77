/**
 The lifecycle of one session as a labelled transition system: the session's fields, every
 subprocess ever started for it, every waitDone channel, and a bag of goroutines with program
 counters. One step is one critical section, one close, cancel, start, Wait, emit or spawn.
 */
module Lifecycle {
  import opened SessionTypes
  import opened Sections

  /**
   A started subprocess: the options it was built with, the signals it got, how often it was waited
   for, and whether the last Wait returned an error.
   */
  datatype Proc = Proc(opts: SessionOpts, cancelled: bool, killed: bool, exited: bool, waits: nat, failed: bool)
  {
    /** Neither cancelled nor reaped. */
    predicate Live() { !cancelled && waits == 0 }
  }

  /** The subprocess handles copied out of a session under the lock. */
  datatype Handles = Handles(cmd: Option<nat>, cancel: Option<nat>, waitDone: Option<nat>)

  /** The locals of one pass of the reconnect loop. */
  datatype Try = Try(n: nat, opts: SessionOpts, prior: Handles)

  datatype MonitorPc =
    | WaitProcess
    | CloseDone(err: bool)
    | ReportExit(err: bool)
    | AnnounceReport(retrigger: bool)
    | Retrigger

  datatype ProberPc =
    | EnterGate
    | RunProber
    | ApplyResult(ok: bool)
    | AnnounceProbe(reconnect: bool)
    | TriggerFromProbe
    | WaitTick
    | LeaveGate

  datatype LoopPc =
    | CheckHeader
    | AnnounceAttempt(try: Try)
    | CancelOld(try: Try)
    | AwaitOld(try: Try)
    | StartFresh(try: Try)
    | RecordFailure(try: Try)
    | AnnounceFailure(try: Try)
    | SleepBackoff(try: Try)
    | InstallFresh(p: nat, k: nat)
    | CancelFresh(p: nat)
    | KillFresh(p: nat)
    | ReapFresh(p: nat)
    | AnnounceInstall(p: nat, k: nat)
    | SpawnMonitor(p: nat, k: nat)
    | SpawnProber
    | AnnounceEnd
    | ClearInFlight

  datatype StopPc = EnterStop | CancelStopped(h: Handles) | AwaitStopped(h: Handles)

  datatype ReconnectPc = LookUp | TriggerManual

  datatype PollerPc = PollPid | RecordDeath | AnnounceDeath

  datatype Thread =
    | Monitor(mpc: MonitorPc, cmd: nat, done: nat)
    | Prober(ppc: ProberPc)
    | Loop(lpc: LoopPc)
    | Stopper(spc: StopPc)
    | Reconnector(rpc: ReconnectPc)
    | Poller(xpc: PollerPc)
    | Remover
    | Announcer
    | Finished

  /** What an observer of the run records; the accounting theorems count over this log. */
  datatype Event =
    | ProbeFailed
    | ProbeSucceeded
    | ProbeTriggered
    | ManualReset
    | AttemptBegun(n: nat)
    | LoopGaveUp
    | Installed(p: nat)

  /**
   What all goroutines share. `chans[k]` counts the closes of channel k. `dirty` records that the
   session's state or registration changed after the last emit.
   */
  datatype Shared = Shared(sess: Session, procs: seq<Proc>, chans: seq<nat>, log: seq<Event>, dirty: bool)

  datatype Sys = Sys(sh: Shared, threads: seq<Thread>)

  datatype Action =
    | Advance(i: nat, choice: bool)
    | CallStop
    | CallReconnect
    | CallRemove
    | ProcessExits(p: nat)

  datatype Out = Out(sh: Shared, next: Thread, spawn: Option<Thread>)

  function Put(sh: Shared, sess: Session): Shared {
    sh.(sess := sess,
        dirty := sh.dirty || sess.state != sh.sess.state || sess.registered != sh.sess.registered)
  }

  function Emit(sh: Shared): Shared {
    sh.(dirty := false)
  }

  function Record(sh: Shared, events: seq<Event>): Shared {
    sh.(log := sh.log + events)
  }

  function Cancel(sh: Shared, h: Option<nat>): Shared {
    match h
    case None => sh
    case Some(p) => if p < |sh.procs| then sh.(procs := sh.procs[p := sh.procs[p].(cancelled := true)]) else sh
  }

  function Kill(sh: Shared, h: Option<nat>): Shared {
    match h
    case None => sh
    case Some(p) => if p < |sh.procs| then sh.(procs := sh.procs[p := sh.procs[p].(killed := true)]) else sh
  }

  /** `err` is what Wait returns. */
  function Reap(sh: Shared, p: nat, err: bool): Shared {
    if p < |sh.procs| then sh.(procs := sh.procs[p := sh.procs[p].(waits := sh.procs[p].waits + 1, failed := err)]) else sh
  }

  function Close(sh: Shared, k: nat): Shared {
    if k < |sh.chans| then sh.(chans := sh.chans[k := sh.chans[k] + 1]) else sh
  }

  predicate HasExited(sh: Shared, p: nat) {
    p < |sh.procs| && sh.procs[p].exited
  }

  /** A receive from a waitDone channel can proceed: the channel is closed, or there is none to wait for. */
  predicate DoneOrNil(sh: Shared, h: Option<nat>) {
    match h
    case None => true
    case Some(k) => k < |sh.chans| && sh.chans[k] > 0
  }

  /** `choice` is the timeout of a select; it can fire whenever there is a channel to wait for. */
  predicate SelectReady(sh: Shared, h: Option<nat>, timeout: bool) {
    if timeout then h.Some? else DoneOrNil(sh, h)
  }

  function HandlesOf(s: Session): Handles {
    Handles(s.cmd, s.cancel, s.waitDone)
  }

  function Trigger(sh: Shared, manual: bool, next: Thread): Out {
    var (sess, spawn) := TriggerSection(sh.sess, manual);
    Out(Record(Put(sh, sess), if manual && sh.sess.reconnectable then [ManualReset] else []),
        next,
        if spawn then Some(Loop(CheckHeader)) else None)
  }

  // ---------------------------------------------------------------- goroutines

  function AdvanceMonitor(sh: Shared, pc: MonitorPc, cmd: nat, done: nat, choice: bool): Out {
    match pc
    case WaitProcess => Out(Reap(sh, cmd, choice), Monitor(CloseDone(choice), cmd, done), None)
    case CloseDone(err) => Out(Close(sh, done), Monitor(ReportExit(err), cmd, done), None)
    case ReportExit(err) =>
      var (sess, after) := MonitorSection(sh.sess, err);
      Out(Put(sh, sess),
          match after
          case Return => Finished
          case Announce => Monitor(AnnounceReport(false), cmd, done)
          case AnnounceAndTrigger => Monitor(AnnounceReport(true), cmd, done),
          None)
    case AnnounceReport(retrigger) =>
      Out(Emit(sh), if retrigger then Monitor(Retrigger, cmd, done) else Finished, None)
    case Retrigger => Trigger(sh, false, Finished)
  }

  function ProbeEvents(s: Session, ok: bool, o: ProbeOutcome): seq<Event> {
    if !CountsProbes(s) then []
    else if ok then [ProbeSucceeded]
    else if o.reconnect then [ProbeFailed, ProbeTriggered]
    else [ProbeFailed]
  }

  function AdvanceProber(c: Policy, sh: Shared, pc: ProberPc, choice: bool): Out {
    match pc
    case EnterGate =>
      var (sess, entered) := ProbeGateSection(sh.sess);
      Out(Put(sh, sess),
          if !entered then Finished else if choice then Prober(RunProber) else Prober(LeaveGate),
          None)
    case RunProber => Out(sh, Prober(ApplyResult(choice)), None)
    case ApplyResult(ok) =>
      var (sess, o) := ProbeSection(c, sh.sess, ok);
      Out(Record(Put(sh, sess), ProbeEvents(sh.sess, ok, o)),
          if !o.keepProbing then Prober(LeaveGate)
          else if o.changed then Prober(AnnounceProbe(o.reconnect))
          else if o.reconnect then Prober(TriggerFromProbe)
          else Prober(WaitTick),
          None)
    case AnnounceProbe(reconnect) =>
      Out(Emit(sh), if reconnect then Prober(TriggerFromProbe) else Prober(WaitTick), None)
    case TriggerFromProbe => Trigger(sh, false, Prober(WaitTick))
    case WaitTick => Out(sh, if choice then Prober(RunProber) else Prober(LeaveGate), None)
    case LeaveGate => Out(Put(sh, sh.sess.(probeInFlight := false)), Finished, None)
  }

  function AdvanceLoop(c: Policy, sh: Shared, pc: LoopPc, choice: bool): Out {
    match pc
    case CheckHeader =>
      var (sess, o) := HeaderSection(c, sh.sess);
      (match o
       case StopRecorded => Out(Put(sh, sess), Loop(AnnounceEnd), None)
       case Leave => Out(Put(sh, sess), Loop(ClearInFlight), None)
       case GaveUp => Out(Record(Put(sh, sess), [LoopGaveUp]), Loop(AnnounceEnd), None)
       case Attempt(n) =>
         Out(Record(Put(sh, sess), [AttemptBegun(n)]),
             Loop(AnnounceAttempt(Try(n, OptsFromSession(sh.sess.target), HandlesOf(sh.sess)))),
             None))
    case AnnounceAttempt(try) => Out(Emit(sh), Loop(CancelOld(try)), None)
    case CancelOld(try) => Out(Cancel(sh, try.prior.cancel), Loop(AwaitOld(try)), None)
    case AwaitOld(try) => Out(if choice then Kill(sh, try.prior.cmd) else sh, Loop(StartFresh(try)), None)
    case StartFresh(try) =>
      if choice then
        Out(sh.(procs := sh.procs + [Proc(try.opts, false, false, false, 0, false)], chans := sh.chans + [0]),
            Loop(InstallFresh(|sh.procs|, |sh.chans|)),
            None)
      else
        Out(sh, Loop(RecordFailure(try)), None)
    case RecordFailure(try) => Out(sh, Loop(AnnounceFailure(try)), None)
    case AnnounceFailure(try) => Out(Emit(sh), Loop(SleepBackoff(try)), None)
    case SleepBackoff(try) => Out(sh, Loop(CheckHeader), None)
    case InstallFresh(p, k) =>
      var (sess, installed) := InstallSection(sh.sess, p, k);
      if installed then
        Out(Record(Put(sh, sess), [Installed(p)]), Loop(AnnounceInstall(p, k)), None)
      else
        Out(Put(sh, sess), Loop(CancelFresh(p)), None)
    case CancelFresh(p) => Out(Cancel(sh, Some(p)), Loop(KillFresh(p)), None)
    case KillFresh(p) => Out(Kill(sh, Some(p)), Loop(ReapFresh(p)), None)
    case ReapFresh(p) => Out(Reap(sh, p, choice), Loop(AnnounceEnd), None)
    case AnnounceInstall(p, k) => Out(Emit(sh), Loop(SpawnMonitor(p, k)), None)
    case SpawnMonitor(p, k) =>
      Out(sh, if sh.sess.target.typ.TypePortForward? then Loop(SpawnProber) else Loop(ClearInFlight),
          Some(Monitor(WaitProcess, p, k)))
    case SpawnProber => Out(sh, Loop(ClearInFlight), Some(Prober(EnterGate)))
    case AnnounceEnd => Out(Emit(sh), Loop(ClearInFlight), None)
    case ClearInFlight => Out(Put(sh, sh.sess.(reconnectInFlight := false)), Finished, None)
  }

  function AdvanceStopper(sh: Shared, pc: StopPc, choice: bool): Out {
    match pc
    case EnterStop =>
      if sh.sess.registered then
        Out(Put(sh, StopSection(sh.sess)), Stopper(CancelStopped(HandlesOf(sh.sess))), None)
      else
        Out(sh, Finished, None)
    case CancelStopped(h) => Out(Cancel(sh, h.cancel), Stopper(AwaitStopped(h)), None)
    case AwaitStopped(h) => Out(if choice then Kill(sh, h.cmd) else sh, Finished, None)
  }

  function AdvanceThread(c: Policy, sh: Shared, t: Thread, choice: bool): Out {
    match t
    case Monitor(pc, cmd, done) => AdvanceMonitor(sh, pc, cmd, done, choice)
    case Prober(pc) => AdvanceProber(c, sh, pc, choice)
    case Loop(pc) => AdvanceLoop(c, sh, pc, choice)
    case Stopper(pc) => AdvanceStopper(sh, pc, choice)
    case Reconnector(LookUp) =>
      Out(sh, if sh.sess.registered && sh.sess.reconnectable then Reconnector(TriggerManual) else Finished, None)
    case Reconnector(TriggerManual) => Trigger(sh, true, Finished)
    case Poller(PollPid) => Out(sh, if choice then Poller(RecordDeath) else Finished, None)
    case Poller(RecordDeath) => Out(Put(sh, PollerSection(sh.sess)), Poller(AnnounceDeath), None)
    case Poller(AnnounceDeath) => Out(Emit(sh), Finished, None)
    case Remover => Out(Put(sh, sh.sess.(registered := false)), Announcer, None)
    case Announcer => Out(Emit(sh), Finished, None)
    case Finished => Out(sh, Finished, None)
  }

  /** Whether goroutine t can take its next step. */
  predicate Ready(sh: Shared, t: Thread, choice: bool) {
    match t
    case Monitor(WaitProcess, cmd, _) => HasExited(sh, cmd)
    case Loop(AwaitOld(try)) => SelectReady(sh, try.prior.waitDone, choice)
    case Loop(ReapFresh(p)) => HasExited(sh, p)
    case Stopper(AwaitStopped(h)) => SelectReady(sh, h.waitDone, choice)
    case Finished => false
    case _ => true
  }

  // ---------------------------------------------------------------- steps and runs

  predicate Enabled(s: Sys, a: Action) {
    match a
    case Advance(i, choice) => i < |s.threads| && Ready(s.sh, s.threads[i], choice)
    case ProcessExits(p) => p < |s.sh.procs| && !s.sh.procs[p].exited
    case CallStop | CallReconnect | CallRemove => true
  }

  function Spawned(o: Option<Thread>): seq<Thread> {
    match o
    case None => []
    case Some(t) => [t]
  }

  function Step(c: Policy, s: Sys, a: Action): Sys
    requires Enabled(s, a)
  {
    match a
    case Advance(i, choice) =>
      var o := AdvanceThread(c, s.sh, s.threads[i], choice);
      Sys(o.sh, s.threads[i := o.next] + Spawned(o.spawn))
    case CallStop => s.(threads := s.threads + [Stopper(EnterStop)])
    case CallReconnect => s.(threads := s.threads + [Reconnector(LookUp)])
    case CallRemove => s.(threads := s.threads + [Remover])
    case ProcessExits(p) => s.(sh := s.sh.(procs := s.sh.procs[p := s.sh.procs[p].(exited := true)]))
  }

  /** Every action of `acts` is enabled when its turn comes. */
  predicate Runs(c: Policy, s: Sys, acts: seq<Action>)
    decreases |acts|
  {
    acts == [] || (Enabled(s, acts[0]) && Runs(c, Step(c, s, acts[0]), acts[1..]))
  }

  function After(c: Policy, s: Sys, acts: seq<Action>): Sys
    requires Runs(c, s, acts)
    decreases |acts|
  {
    if acts == [] then s else After(c, Step(c, s, acts[0]), acts[1..])
  }

  // ---------------------------------------------------------------- how a session comes to be

  function NewSession(target: Target, reconnectable: bool, handle: Option<nat>): Session {
    Session(target, reconnectable, true, StateRunning, 0, 0, false, false, handle, handle, handle)
  }

  function OwnedShared(target: Target, opts: SessionOpts, reconnectable: bool): Shared {
    Shared(NewSession(target, reconnectable, Some(0)), [Proc(opts, false, false, false, 0, false)], [0], [], true)
  }

  /** StartSession, its subprocess started: a port forward is reconnectable and probed, a shell is neither. */
  function Started(opts: SessionOpts): Sys {
    Sys(OwnedShared(TargetOf(opts), opts, opts.typ.TypePortForward?),
        [Announcer, Monitor(WaitProcess, 0, 0)] + (if opts.typ.TypePortForward? then [Prober(EnterGate)] else []))
  }

  /** AdoptSession: a shell whose subprocess somebody else started; ports and remote host are not copied. */
  function Adopted(opts: SessionOpts): Sys {
    Sys(OwnedShared(ShellTarget(opts), OptsFromSession(ShellTarget(opts)), false),
        [Announcer, Monitor(WaitProcess, 0, 0)])
  }

  /** RegisterExternal: no subprocess of ours, a PID poller if there is a process checker. */
  function External(opts: SessionOpts, hasChecker: bool): Sys {
    Sys(Shared(NewSession(TargetOf(opts), false, None), [], [], [], true),
        [Announcer]
        + (if hasChecker then [Poller(PollPid)] else [])
        + (if opts.typ.TypePortForward? then [Prober(EnterGate)] else []))
  }

  ghost predicate Init(s: Sys) {
    || (exists opts :: s == Started(opts))
    || (exists opts :: s == Adopted(opts))
    || (exists opts, hasChecker :: s == External(opts, hasChecker))
  }
}
