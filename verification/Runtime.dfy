/**
 The lifecycle executed in place: one session record that all goroutines update, the subprocesses and
 channels it started, and a schedule that says who moves next. A run of it is a run of the transition
 system, so whatever is proved of the runs of that holds of the record in place.
 */
module Runtime {
  import opened SessionTypes
  import opened Sections
  import opened Lifecycle
  import opened Tallies
  import opened Invariant
  import opened Preservation
  import opened Reach
  import opened SessionRecords

  class Execution {
    const session: SessionRecord
    var registered: bool
    var procs: seq<Proc>
    var chans: seq<nat>
    var log: seq<Event>
    var dirty: bool
    var threads: seq<Thread>

    function View(): Shared
      reads this, session
    {
      Shared(session.View(registered), procs, chans, log, dirty)
    }

    function State(): Sys
      reads this, session
    {
      Sys(View(), threads)
    }

    constructor (s: Sys)
      ensures State() == s && fresh(session)
    {
      session := new SessionRecord.Copy(s.sh.sess);
      registered := s.sh.sess.registered;
      procs, chans, log, dirty := s.sh.procs, s.sh.chans, s.sh.log, s.sh.dirty;
      threads := s.threads;
    }

    // -------------------------------------------------------------- effects outside the lock

    method CancelProc(h: Option<nat>)
      modifies this`procs
      ensures View() == Cancel(old(View()), h)
    {
      if h.Some? && h.value < |procs| {
        procs := procs[h.value := procs[h.value].(cancelled := true)];
      }
    }

    method KillProc(h: Option<nat>)
      modifies this`procs
      ensures View() == Kill(old(View()), h)
    {
      if h.Some? && h.value < |procs| {
        procs := procs[h.value := procs[h.value].(killed := true)];
      }
    }

    method WaitProc(p: nat, err: bool)
      modifies this`procs
      ensures View() == Reap(old(View()), p, err)
    {
      if p < |procs| {
        procs := procs[p := procs[p].(waits := procs[p].waits + 1, failed := err)];
      }
    }

    method CloseChan(k: nat)
      modifies this`chans
      ensures View() == Close(old(View()), k)
    {
      if k < |chans| {
        chans := chans[k := chans[k] + 1];
      }
    }

    method StartProc(opts: SessionOpts) returns (p: nat, k: nat)
      modifies this`procs, this`chans
      ensures p == |old(procs)| && k == |old(chans)|
      ensures procs == old(procs) + [Proc(opts, false, false, false, 0, false)] && chans == old(chans) + [0]
    {
      p, k := |procs|, |chans|;
      procs := procs + [Proc(opts, false, false, false, 0, false)];
      chans := chans + [0];
    }

    method EmitEvent()
      modifies this`dirty
      ensures View() == Emit(old(View()))
    {
      dirty := false;
    }

    /** Observers take note of what a critical section did. */
    method Note(before: SessionState, events: seq<Event>)
      modifies this`dirty, this`log
      ensures dirty == (old(dirty) || session.state != before) && log == old(log) + events
    {
      dirty := dirty || session.state != before;
      log := log + events;
    }

    // -------------------------------------------------------------- goroutines

    method TriggerReconnect(manual: bool, next: Thread) returns (spawn: Option<Thread>)
      modifies this`dirty, this`log, session
      ensures Out(View(), next, spawn) == Trigger(old(View()), manual, next)
    {
      var before := session.state;
      var spawned := session.EnterReconnect(manual, registered);
      Note(before, if manual && session.reconnectable then [ManualReset] else []);
      spawn := if spawned then Some(Loop(CheckHeader)) else None;
    }

    method MonitorMoves(pc: MonitorPc, cmd: nat, done: nat, choice: bool) returns (next: Thread, spawn: Option<Thread>)
      modifies this`procs, this`chans, this`dirty, this`log, session
      ensures Out(View(), next, spawn) == AdvanceMonitor(old(View()), pc, cmd, done, choice)
    {
      next, spawn := Finished, None;
      match pc
      case WaitProcess =>
        WaitProc(cmd, choice);
        next := Monitor(CloseDone(choice), cmd, done);
      case CloseDone(err) =>
        CloseChan(done);
        next := Monitor(ReportExit(err), cmd, done);
      case ReportExit(err) =>
        var before := session.state;
        var after := session.RecordExit(err, registered);
        Note(before, []);
        assert log == old(log);
        if after != Return {
          next := Monitor(AnnounceReport(after == AnnounceAndTrigger), cmd, done);
        }
      case AnnounceReport(retrigger) =>
        EmitEvent();
        if retrigger {
          next := Monitor(Retrigger, cmd, done);
        }
      case Retrigger =>
        spawn := TriggerReconnect(false, Finished);
    }

    method ProberMoves(c: Policy, pc: ProberPc, choice: bool) returns (next: Thread, spawn: Option<Thread>)
      modifies this`dirty, this`log, session
      ensures Out(View(), next, spawn) == AdvanceProber(c, old(View()), pc, choice)
    {
      next, spawn := Finished, None;
      match pc
      case EnterGate =>
        var entered := session.EnterProbe(registered);
        if entered {
          next := if choice then Prober(RunProber) else Prober(LeaveGate);
        }
      case RunProber =>
        next := Prober(ApplyResult(choice));
      case ApplyResult(ok) =>
        next := ApplyProbe(c, ok);
      case AnnounceProbe(reconnect) =>
        EmitEvent();
        next := if reconnect then Prober(TriggerFromProbe) else Prober(WaitTick);
      case TriggerFromProbe =>
        next := Prober(WaitTick);
        spawn := TriggerReconnect(false, next);
      case WaitTick =>
        next := if choice then Prober(RunProber) else Prober(LeaveGate);
      case LeaveGate =>
        session.probeInFlight := false;
    }

    method ApplyProbe(c: Policy, ok: bool) returns (next: Thread)
      modifies this`dirty, this`log, session
      ensures Out(View(), next, None) == AdvanceProber(c, old(View()), ApplyResult(ok), false)
    {
      var before := session.state;
      var counts := CountsProbes(session.View(registered));
      var keepProbing, changed, reconnect := session.ApplyProbe(c, ok, registered);
      Note(before, if !counts then [] else if ok then [ProbeSucceeded]
                   else if reconnect then [ProbeFailed, ProbeTriggered] else [ProbeFailed]);
      next := if !keepProbing then Prober(LeaveGate)
              else if changed then Prober(AnnounceProbe(reconnect))
              else if reconnect then Prober(TriggerFromProbe)
              else Prober(WaitTick);
    }

    method LoopChecksHeader(c: Policy) returns (next: Thread)
      modifies this`dirty, this`log, session
      ensures Out(View(), next, None) == AdvanceLoop(c, old(View()), CheckHeader, false)
    {
      var before := session.state;
      var opts := OptsFromSession(session.target);
      var prior := Handles(session.cmd, session.cancel, session.waitDone);
      var outcome := session.CheckHeader(c, registered);
      match outcome
      case StopRecorded => Note(before, []); next := Loop(AnnounceEnd);
      case Leave => Note(before, []); next := Loop(ClearInFlight);
      case GaveUp => Note(before, [LoopGaveUp]); next := Loop(AnnounceEnd);
      case Attempt(n) => Note(before, [AttemptBegun(n)]); next := Loop(AnnounceAttempt(Try(n, opts, prior)));
      assert old(log) + [] == old(log);
    }

    method LoopInstalls(c: Policy, p: nat, k: nat) returns (next: Thread)
      modifies this`dirty, this`log, session
      ensures Out(View(), next, None) == AdvanceLoop(c, old(View()), InstallFresh(p, k), false)
    {
      var before := session.state;
      var installed := session.Install(p, k, registered);
      if installed {
        Note(before, [Installed(p)]);
        next := Loop(AnnounceInstall(p, k));
      } else {
        Note(before, []);
        next := Loop(CancelFresh(p));
      }
      assert old(log) + [] == old(log);
    }

    /** The rest of a pass of the loop: its attempt to replace the subprocess. */
    method LoopAttempts(c: Policy, pc: LoopPc, choice: bool) returns (next: Thread)
      requires Plays(Attempting, Loop(pc)) && !pc.CheckHeader? && !pc.InstallFresh?
      modifies this`procs, this`chans, this`dirty
      ensures Out(View(), next, None) == AdvanceLoop(c, old(View()), pc, choice)
    {
      next := Finished;
      match pc
      case AnnounceAttempt(try) => EmitEvent(); next := Loop(CancelOld(try));
      case CancelOld(try) => CancelProc(try.prior.cancel); next := Loop(AwaitOld(try));
      case AwaitOld(try) =>
        if choice {
          KillProc(try.prior.cmd);
        }
        next := Loop(StartFresh(try));
      case StartFresh(try) =>
        if choice {
          var p, k := StartProc(try.opts);
          next := Loop(InstallFresh(p, k));
        } else {
          next := Loop(RecordFailure(try));
        }
      case RecordFailure(try) => next := Loop(AnnounceFailure(try));
      case AnnounceFailure(try) => EmitEvent(); next := Loop(SleepBackoff(try));
      case SleepBackoff(try) => next := Loop(CheckHeader);
    }

    /** What a loop does once it is done with the session. */
    method LoopLeaves(c: Policy, pc: LoopPc, choice: bool) returns (next: Thread, spawn: Option<Thread>)
      requires Leaving(Loop(pc))
      modifies this`procs, this`dirty, session
      ensures Out(View(), next, spawn) == AdvanceLoop(c, old(View()), pc, choice)
    {
      next, spawn := Finished, None;
      match pc
      case CancelFresh(p) => CancelProc(Some(p)); next := Loop(KillFresh(p));
      case KillFresh(p) => KillProc(Some(p)); next := Loop(ReapFresh(p));
      case ReapFresh(p) => WaitProc(p, choice); next := Loop(AnnounceEnd);
      case AnnounceInstall(p, k) => EmitEvent(); next := Loop(SpawnMonitor(p, k));
      case SpawnMonitor(p, k) =>
        spawn := Some(Monitor(WaitProcess, p, k));
        next := if session.target.typ == TypePortForward then Loop(SpawnProber) else Loop(ClearInFlight);
      case SpawnProber => spawn := Some(Prober(EnterGate)); next := Loop(ClearInFlight);
      case AnnounceEnd => EmitEvent(); next := Loop(ClearInFlight);
      case ClearInFlight => session.reconnectInFlight := false;
    }

    method LoopMoves(c: Policy, pc: LoopPc, choice: bool) returns (next: Thread, spawn: Option<Thread>)
      modifies this`procs, this`chans, this`dirty, this`log, session
      ensures Out(View(), next, spawn) == AdvanceLoop(c, old(View()), pc, choice)
    {
      spawn := None;
      if pc.CheckHeader? {
        next := LoopChecksHeader(c);
      } else if pc.InstallFresh? {
        next := LoopInstalls(c, pc.p, pc.k);
      } else if Plays(Attempting, Loop(pc)) {
        next := LoopAttempts(c, pc, choice);
      } else {
        next, spawn := LoopLeaves(c, pc, choice);
      }
    }

    method StopperMoves(pc: StopPc, choice: bool) returns (next: Thread)
      modifies this`procs, this`dirty, this`log, session
      ensures Out(View(), next, None) == AdvanceStopper(old(View()), pc, choice)
    {
      next := Finished;
      match pc
      case EnterStop =>
        var before := session.state;
        var found, cancel, waitDone, cmd := session.BeginStop(registered);
        Note(before, []);
        assert log == old(log);
        if found {
          next := Stopper(CancelStopped(Handles(cmd, cancel, waitDone)));
        }
      case CancelStopped(h) => CancelProc(h.cancel); next := Stopper(AwaitStopped(h));
      case AwaitStopped(h) =>
        if choice {
          KillProc(h.cmd);
        }
    }

    /** Pollers, manual reconnects, removals and announcers. */
    method OtherMoves(c: Policy, t: Thread, choice: bool) returns (next: Thread, spawn: Option<Thread>)
      requires !t.Monitor? && !t.Prober? && !t.Loop? && !t.Stopper?
      modifies this`registered, this`dirty, this`log, session
      ensures Out(View(), next, spawn) == AdvanceThread(c, old(View()), t, choice)
    {
      next, spawn := Finished, None;
      match t
      case Reconnector(LookUp) =>
        if registered && session.reconnectable {
          next := Reconnector(TriggerManual);
        }
      case Reconnector(TriggerManual) => spawn := TriggerReconnect(true, Finished);
      case Poller(PollPid) =>
        if choice {
          next := Poller(RecordDeath);
        }
      case Poller(RecordDeath) =>
        var before := session.state;
        session.RecordExternalDeath(registered);
        Note(before, []);
        assert log == old(log);
        next := Poller(AnnounceDeath);
      case Poller(AnnounceDeath) => EmitEvent();
      case Remover =>
        dirty := dirty || registered;
        registered := false;
        next := Announcer;
      case Announcer => EmitEvent();
      case Finished =>
    }

    // -------------------------------------------------------------- schedules

    method Moves(c: Policy, i: nat, choice: bool)
      requires Enabled(State(), Advance(i, choice))
      modifies this, session
      ensures State() == Step(c, old(State()), Advance(i, choice))
    {
      var next, spawn := Finished, None;
      match threads[i] {
        case Monitor(pc, cmd, done) => next, spawn := MonitorMoves(pc, cmd, done, choice);
        case Prober(pc) => next, spawn := ProberMoves(c, pc, choice);
        case Loop(pc) => next, spawn := LoopMoves(c, pc, choice);
        case Stopper(pc) => next := StopperMoves(pc, choice);
        case t => next, spawn := OtherMoves(c, t, choice);
      }
      threads := threads[i := next] + if spawn.Some? then [spawn.value] else [];
    }

    method Act(c: Policy, a: Action)
      requires Enabled(State(), a)
      modifies this, session
      ensures State() == Step(c, old(State()), a)
    {
      match a
      case Advance(i, choice) => Moves(c, i, choice);
      case CallStop => threads := threads + [Stopper(EnterStop)];
      case CallReconnect => threads := threads + [Reconnector(LookUp)];
      case CallRemove => threads := threads + [Remover];
      case ProcessExits(p) => procs := procs[p := procs[p].(exited := true)];
    }

    /**
     Executes a schedule; whoever cannot move when its turn comes is passed over. What is executed is
     a run of the transition system, the whole schedule if that is one; so from any way of creating a
     session the record in place satisfies the invariant at the end.
     */
    method Run(c: Policy, schedule: seq<Action>) returns (ghost done: seq<Action>)
      modifies this, session
      ensures Runs(c, old(State()), done) && State() == After(c, old(State()), done)
      ensures Runs(c, old(State()), schedule) ==> done == schedule
      ensures Init(old(State())) ==> Inv(c, State())
    {
      ghost var start := State();
      done := [];
      for k := 0 to |schedule|
        invariant Runs(c, start, done) && State() == After(c, start, done)
        invariant Runs(c, start, schedule) ==> done == schedule[..k]
      {
        if Enabled(State(), schedule[k]) {
          RunSnoc(c, start, done, schedule[k]);
          done := done + [schedule[k]];
          Act(c, schedule[k]);
          assert schedule[..k] + [schedule[k]] == schedule[..k + 1];
        } else if Runs(c, start, schedule) {
          NextEnabled(c, start, schedule, k);
        }
      }
      assert schedule[..|schedule|] == schedule;
      if Init(start) {
        Reachable(c, start, done);
      }
    }
  }

  /** In a run every action is enabled when its turn comes. */
  lemma {:induction false} NextEnabled(c: Policy, s: Sys, acts: seq<Action>, k: nat)
    requires Runs(c, s, acts) && k < |acts|
    ensures Runs(c, s, acts[..k]) && Enabled(After(c, s, acts[..k]), acts[k])
    decreases k
  {
    hide Step, Enabled;
    if k > 0 {
      NextEnabled(c, Step(c, s, acts[0]), acts[1..], k - 1);
      assert acts[..k][1..] == acts[1..][..k - 1];
    }
  }
}
