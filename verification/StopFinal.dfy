/** When a stop is final. */
module StopFinal {
  import opened SessionTypes
  import opened Sections
  import opened Lifecycle
  import opened Tallies
  import opened Invariant
  import opened Preservation

  /** No monitor has its critical section still to run, and none is about to be spawned. */
  ghost predicate MonitorsDone(s: Sys) {
    forall i :: 0 <= i < |s.threads| ==> !Plays(PendingMonitor, s.threads[i])
  }

  ghost predicate Settled(s: Sys) {
    s.sh.sess.state.IsStop() && MonitorsDone(s)
  }

  lemma LoopStaysStopped(c: Policy, sh: Shared, pc: LoopPc, choice: bool)
    requires sh.sess.state.IsStop()
    ensures AdvanceLoop(c, sh, pc, choice).sh.sess.state.IsStop()
  {
  }

  lemma LoopInstallsNothing(c: Policy, sh: Shared, pc: LoopPc, choice: bool)
    requires sh.sess.state.IsStop()
    ensures HandlesOf(AdvanceLoop(c, sh, pc, choice).sh.sess) == HandlesOf(sh.sess)
  {
  }

  lemma LoopKeepsStop(c: Policy, sh: Shared, pc: LoopPc, choice: bool)
    requires sh.sess.state.IsStop()
    ensures var o := AdvanceLoop(c, sh, pc, choice);
            o.sh.sess.state.IsStop() && HandlesOf(o.sh.sess) == HandlesOf(sh.sess)
  {
    hide AdvanceLoop;
    LoopStaysStopped(c, sh, pc, choice);
    LoopInstallsNothing(c, sh, pc, choice);
  }

  lemma LoopSpawnsNoMonitor(c: Policy, sh: Shared, pc: LoopPc, choice: bool)
    requires sh.sess.state.IsStop() && !Plays(PendingMonitor, Loop(pc))
    ensures Gain(PendingMonitor, AdvanceLoop(c, sh, pc, choice)) == 0
  {
  }

  lemma ProberKeepsStop(c: Policy, sh: Shared, pc: ProberPc, choice: bool)
    requires sh.sess.state.IsStop()
    ensures var o := AdvanceProber(c, sh, pc, choice);
            && o.sh.sess.state.IsStop() && HandlesOf(o.sh.sess) == HandlesOf(sh.sess)
            && Gain(PendingMonitor, o) == 0
  {
    hide ProbeEvents, CountsProbes;
  }

  /** A monitor keeps a stop unless it reports an exit in state Stopped: then a reconnectable session stalls. */
  lemma MonitorKeepsStop(sh: Shared, pc: MonitorPc, p: nat, k: nat, choice: bool)
    requires sh.sess.state.IsStop()
    ensures var o := AdvanceMonitor(sh, pc, p, k, choice);
            && HandlesOf(o.sh.sess) == HandlesOf(sh.sess)
            && (!pc.ReportExit? || sh.sess.state.StateStopping? ==> o.sh.sess.state.IsStop())
            && (pc.ReportExit? && sh.sess.state.StateStopped? && sh.sess.reconnectable ==> o.sh.sess.state.StateStalled?)
            && (!Plays(PendingMonitor, Monitor(pc, p, k)) ==> Gain(PendingMonitor, o) == 0)
  {
  }

  /** What one goroutine's step does in a stopping or stopped session. */
  lemma StopStep(c: Policy, sh: Shared, t: Thread, choice: bool)
    requires sh.sess.state.IsStop() && !Plays(PendingMonitor, t)
    ensures var o := AdvanceThread(c, sh, t, choice);
            && o.sh.sess.state.IsStop()
            && HandlesOf(o.sh.sess) == HandlesOf(sh.sess)
            && Gain(PendingMonitor, o) == 0
  {
    hide AdvanceLoop, AdvanceMonitor, AdvanceProber;
    match t
    case Monitor(pc, p, k) => MonitorKeepsStop(sh, pc, p, k, choice);
    case Prober(pc) => ProberKeepsStop(c, sh, pc, choice);
    case Loop(pc) => LoopKeepsStop(c, sh, pc, choice); LoopSpawnsNoMonitor(c, sh, pc, choice);
    case Stopper(pc) =>
    case _ =>
  }

  lemma SettledStep(c: Policy, s: Sys, a: Action)
    requires Settled(s) && Enabled(s, a)
    ensures Settled(Step(c, s, a))
    ensures HandlesOf(Step(c, s, a).sh.sess) == HandlesOf(s.sh.sess)
  {
    if a.Advance? {
      StopStep(c, s.sh, s.threads[a.i], a.choice);
    }
  }

  /**
   Stop is final once every monitor has reported: no probe, manual reconnect, in-flight respawn,
   removal or later stop takes the session out of the two stop states or installs a subprocess.
   */
  lemma {:induction false} StopIsFinal(c: Policy, s: Sys, acts: seq<Action>)
    requires Settled(s) && Runs(c, s, acts)
    ensures After(c, s, acts).sh.sess.state.IsStop()
    ensures HandlesOf(After(c, s, acts).sh.sess) == HandlesOf(s.sh.sess)
    decreases |acts|
  {
    if acts != [] {
      SettledStep(c, s, acts[0]);
      StopIsFinal(c, Step(c, s, acts[0]), acts[1..]);
    }
  }

  /** A monitor recording an exit, in a stopped reconnectable session. */
  predicate FallsThrough(s: Sys, a: Action) {
    && a.Advance? && a.i < |s.threads|
    && s.threads[a.i].Monitor? && s.threads[a.i].mpc.ReportExit?
    && s.sh.sess.state.StateStopped? && s.sh.sess.reconnectable
  }

  lemma OthersKeepStop(c: Policy, sh: Shared, t: Thread, choice: bool)
    requires sh.sess.state.IsStop() && !t.Monitor?
    ensures AdvanceThread(c, sh, t, choice).sh.sess.state.IsStop()
  {
    hide AdvanceLoop, AdvanceProber;
    match t
    case Prober(pc) => ProberKeepsStop(c, sh, pc, choice);
    case Loop(pc) => LoopKeepsStop(c, sh, pc, choice);
    case Stopper(pc) =>
    case _ =>
  }

  lemma LeavesStopOnlyByFallThrough(c: Policy, s: Sys, a: Action)
    requires ThreadsOk(c, s) && ShellReported(s) && HandlesOk(s.sh)
    requires Enabled(s, a) && s.sh.sess.state.IsStop()
    ensures var next := Step(c, s, a).sh.sess.state;
            && (!next.IsStop() <==> FallsThrough(s, a))
            && (!next.IsStop() ==> next.StateStalled?)
  {
    if a.Advance? {
      var t := s.threads[a.i];
      if t.Monitor? {
        MonitorKeepsStop(s.sh, t.mpc, t.cmd, t.done, a.choice);
        assert ThreadOk(c, s.sh, t);
        if t.mpc.ReportExit? {
          TallyHit(PendingMonitor, s.threads, a.i);
        }
      } else {
        OthersKeepStop(c, s.sh, t, a.choice);
      }
    }
  }

  /** In any run, the one step that leaves the stop states is a monitor's fall-through, and it leads to Stalled. */
  lemma OnlyFallThroughLeavesStop(c: Policy, s: Sys, acts: seq<Action>, a: Action)
    requires Init(s) && Runs(c, s, acts) && Enabled(After(c, s, acts), a)
    requires After(c, s, acts).sh.sess.state.IsStop()
    ensures var t := After(c, s, acts);
            var next := Step(c, t, a).sh.sess.state;
            && (!next.IsStop() <==> FallsThrough(t, a))
            && (!next.IsStop() ==> next.StateStalled?)
  {
    Reachable(c, s, acts);
    LeavesStopOnlyByFallThrough(c, After(c, s, acts), a);
  }
}
