/** What the way a subprocess ended makes of its session. */
module ExitReports {
  import opened SessionTypes
  import opened Sections
  import opened Lifecycle
  import opened Tallies
  import opened Invariant
  import opened Preservation
  import opened Theorems
  import opened Drive

  // ---------------------------------------------------------------- a monitor reports what Wait returned

  /** What a monitor carries to its report is what Wait returned for its own subprocess. */
  predicate ReportsTruly(sh: Shared, t: Thread) {
    t.Monitor? && (t.mpc.CloseDone? || t.mpc.ReportExit?) ==>
      t.cmd < |sh.procs| && sh.procs[t.cmd].waits >= 1 && sh.procs[t.cmd].failed == t.mpc.err
  }

  ghost predicate AllReportTruly(s: Sys) {
    forall i :: 0 <= i < |s.threads| ==> ReportsTruly(s.sh, s.threads[i])
  }

  lemma LoopResult(c: Policy, sh: Shared, pc: LoopPc, choice: bool, p: nat)
    requires p < |sh.procs| && !Plays(Waiter(p), Loop(pc))
    ensures var sh' := AdvanceLoop(c, sh, pc, choice).sh;
            p < |sh'.procs| && sh'.procs[p].failed == sh.procs[p].failed && sh'.procs[p].waits == sh.procs[p].waits
  {
    hide HeaderSection, InstallSection, OptsFromSession;
  }

  /** Only the goroutine that waits for p learns how p ended. */
  lemma ResultStands(c: Policy, sh: Shared, t: Thread, choice: bool, p: nat)
    requires p < |sh.procs| && !Plays(Waiter(p), t)
    ensures var sh' := AdvanceThread(c, sh, t, choice).sh;
            p < |sh'.procs| && sh'.procs[p].failed == sh.procs[p].failed && sh'.procs[p].waits == sh.procs[p].waits
  {
    hide AdvanceLoop, ProbeSection, MonitorSection, TriggerSection, ProbeEvents;
    match t
    case Loop(pc) => LoopResult(c, sh, pc, choice, p);
    case _ =>
  }

  lemma MonitorOwnReport(c: Policy, sh: Shared, pc: MonitorPc, p: nat, k: nat, choice: bool)
    requires ReportsTruly(sh, Monitor(pc, p, k)) && p < |sh.procs|
    ensures var o := AdvanceMonitor(sh, pc, p, k, choice);
            ReportsTruly(o.sh, o.next) && (o.spawn.Some? ==> !o.spawn.value.Monitor?)
  {
    hide MonitorSection, TriggerSection;
  }

  /** Nobody else becomes a monitor, and a new monitor has not waited yet. */
  lemma OthersDontReport(c: Policy, sh: Shared, t: Thread, choice: bool)
    requires !t.Monitor?
    ensures var o := AdvanceThread(c, sh, t, choice);
            !o.next.Monitor? && (o.spawn.Some? && o.spawn.value.Monitor? ==> o.spawn.value.mpc.WaitProcess?)
  {
    hide ProbeSection, TriggerSection, HeaderSection, InstallSection, ProbeEvents;
  }

  lemma OwnReport(c: Policy, sh: Shared, t: Thread, choice: bool)
    requires ReportsTruly(sh, t) && ThreadOk(c, sh, t)
    ensures var o := AdvanceThread(c, sh, t, choice);
            ReportsTruly(o.sh, o.next) && (o.spawn.Some? ==> ReportsTruly(o.sh, o.spawn.value))
  {
    hide AdvanceMonitor;
    if t.Monitor? {
      MonitorOwnReport(c, sh, t.mpc, t.cmd, t.done, choice);
    } else {
      hide AdvanceThread;
      OthersDontReport(c, sh, t, choice);
    }
  }

  lemma AdvanceReports(c: Policy, s: Sys, i: nat, choice: bool)
    requires Inv(c, s) && AllReportTruly(s) && Enabled(s, Advance(i, choice))
    ensures AllReportTruly(Step(c, s, Advance(i, choice)))
  {
    var s' := Step(c, s, Advance(i, choice));
    assert ThreadOk(c, s.sh, s.threads[i]);
    OwnReport(c, s.sh, s.threads[i], choice);
    hide AdvanceThread, ThreadOk;
    forall j | 0 <= j < |s'.threads| ensures ReportsTruly(s'.sh, s'.threads[j]) {
      if j < |s.threads| && j != i {
        OtherReport(c, s, i, j, choice);
      }
    }
  }

  /** Nobody else waits for a subprocess that has been waited for. */
  lemma OtherReport(c: Policy, s: Sys, i: nat, j: nat, choice: bool)
    requires Inv(c, s) && Enabled(s, Advance(i, choice)) && j < |s.threads| && i != j && ReportsTruly(s.sh, s.threads[j])
    ensures ReportsTruly(Step(c, s, Advance(i, choice)).sh, s.threads[j])
  {
    var u := s.threads[j];
    if u.Monitor? && (u.mpc.CloseDone? || u.mpc.ReportExit?) {
      assert Tally(Waiter(u.cmd), s.threads) + s.sh.procs[u.cmd].waits == 1;
      if Plays(Waiter(u.cmd), s.threads[i]) {
        TallyHit(Waiter(u.cmd), s.threads, i);
      }
      ResultStands(c, s.sh, s.threads[i], choice, u.cmd);
    }
  }

  lemma StepReports(c: Policy, s: Sys, a: Action)
    requires Inv(c, s) && AllReportTruly(s) && Enabled(s, a)
    ensures AllReportTruly(Step(c, s, a))
  {
    if a.Advance? {
      AdvanceReports(c, s, a.i, a.choice);
    } else {
      hide Inv;
      var s' := Step(c, s, a);
      forall j | 0 <= j < |s'.threads| ensures ReportsTruly(s'.sh, s'.threads[j]) {
        if j < |s.threads| {
          assert ReportsTruly(s.sh, s.threads[j]);
        }
      }
    }
  }

  lemma {:induction false} RunReports(c: Policy, s: Sys, acts: seq<Action>)
    requires Inv(c, s) && AllReportTruly(s) && Runs(c, s, acts)
    ensures AllReportTruly(After(c, s, acts))
    decreases |acts|
  {
    hide Inv, Step, Enabled, AllReportTruly;
    if acts != [] {
      StepReports(c, s, acts[0]);
      StepKeepsInv(c, s, acts[0]);
      RunReports(c, Step(c, s, acts[0]), acts[1..]);
    }
  }

  lemma InitReports(s: Sys)
    requires Init(s)
    ensures AllReportTruly(s)
  {
  }

  lemma ReachableReports(c: Policy, s: Sys, acts: seq<Action>)
    requires Init(s) && Runs(c, s, acts)
    ensures Inv(c, After(c, s, acts)) && AllReportTruly(After(c, s, acts))
  {
    hide Inv, Step, Enabled, AllReportTruly, Init;
    InitInv(c, s);
    InitReports(s);
    RunKeepsInv(c, s, acts);
    RunReports(c, s, acts);
  }

  // ---------------------------------------------------------------- every report

  /** What a report makes of a session that is in the given state. */
  predicate Reported(before: Session, failed: bool, after: SessionState) {
    match before.state
    case StateReconnecting => after.StateReconnecting?
    case StateStopping => after.StateStopped?
    case _ =>
      if before.reconnectable then after.StateStalled?
      else if failed then after.StateErrored?
      else after.StateStopped?
  }

  lemma ReportStep(c: Policy, s: Sys, i: nat, choice: bool)
    requires AllReportTruly(s) && i < |s.threads| && s.threads[i].Monitor? && s.threads[i].mpc.ReportExit?
    ensures var t := Step(c, s, Advance(i, choice));
            var p := s.threads[i].cmd;
            && p < |s.sh.procs| && s.sh.procs[p].waits >= 1
            && Reported(s.sh.sess, s.sh.procs[p].failed, t.sh.sess.state)
            && (t.sh.sess.state.StateStalled? <==> TriggerUnderWay(t.sh, t.threads[i]))
  {
    assert ReportsTruly(s.sh, s.threads[i]);
  }

  /**
   In every run: an exit that is reported while a reconnect loop is at work changes nothing; a stop is
   recorded whatever Wait returned; an unexpected exit stalls a reconnectable session and only then asks
   for a reconnect; any other session ends Errored if Wait returned an error and Stopped if not.
   */
  lemma ReportsExactly(c: Policy, s: Sys, acts: seq<Action>, i: nat, choice: bool)
    requires Init(s) && Runs(c, s, acts)
    requires var t := After(c, s, acts); i < |t.threads| && t.threads[i].Monitor? && t.threads[i].mpc.ReportExit?
    ensures var t := After(c, s, acts);
            var t' := Step(c, t, Advance(i, choice));
            var p := t.threads[i].cmd;
            && p < |t.sh.procs| && t.sh.procs[p].waits == 1
            && Reported(t.sh.sess, t.sh.procs[p].failed, t'.sh.sess.state)
            && (t'.sh.sess.state.StateStalled? <==> TriggerUnderWay(t'.sh, t'.threads[i]))
  {
    hide Inv, AllReportTruly, Step, TriggerUnderWay;
    ReachableReports(c, s, acts);
    ReportStep(c, After(c, s, acts), i, choice);
    ReapedExactlyOnce(c, s, acts, After(c, s, acts).threads[i].cmd);
  }

  // ---------------------------------------------------------------- shells

  predicate IsShell(sess: Session) {
    !sess.reconnectable && sess.cancel.Some?
  }

  predicate NeverStopped(acts: seq<Action>) {
    forall k :: 0 <= k < |acts| ==> !acts[k].CallStop?
  }

  ghost predicate NoStoppers(s: Sys) {
    forall i :: 0 <= i < |s.threads| ==> !s.threads[i].Stopper?
  }

  /** A shell that nobody has stopped: running until its monitor has reported, and then as its subprocess ended. */
  ghost predicate ShellTold(s: Sys) {
    && |s.sh.procs| == 1
    && (if s.sh.sess.state.StateRunning? then Tally(PendingMonitor, s.threads) == 1
        else
          && Tally(PendingMonitor, s.threads) == 0 && s.sh.procs[0].waits >= 1
          && s.sh.sess.state == if s.sh.procs[0].failed then StateErrored else StateStopped)
  }

  ghost predicate ShellOk(c: Policy, s: Sys) {
    Inv(c, s) && AllReportTruly(s) && IsShell(s.sh.sess) && NoStoppers(s) && ShellTold(s)
  }

  /** What is not a monitor leaves a shell's state and subprocess alone. */
  lemma ShellBystander(c: Policy, sh: Shared, t: Thread, choice: bool)
    requires ThreadOk(c, sh, t) && HandlesOk(sh) && IsShell(sh.sess) && !t.Monitor? && !t.Stopper?
    ensures var o := AdvanceThread(c, sh, t, choice);
            && o.sh.sess.state == sh.sess.state && o.sh.procs == sh.procs
            && Gain(PendingMonitor, o) == 0 && !Plays(PendingMonitor, t)
            && !o.next.Stopper? && o.spawn.None?
  {
    hide ProbeSection, HeaderSection, InstallSection, LoopOk;
  }

  lemma ShellMonitor(sh: Shared, pc: MonitorPc, p: nat, k: nat, choice: bool)
    requires !sh.sess.reconnectable && |sh.procs| == 1 && p == 0
    requires !pc.Retrigger? && (pc.AnnounceReport? ==> !pc.retrigger)
    requires ReportsTruly(sh, Monitor(pc, p, k)) && (Plays(PendingMonitor, Monitor(pc, p, k)) ==> sh.sess.state.StateRunning?)
    ensures var o := AdvanceMonitor(sh, pc, p, k, choice);
            && |o.sh.procs| == 1 && o.spawn.None? && !o.next.Stopper?
            && (if pc.ReportExit? then
                  o.sh.procs == sh.procs && Gain(PendingMonitor, o) == 0
                  && o.sh.sess.state == if sh.procs[0].failed then StateErrored else StateStopped
                else
                  && o.sh.sess.state == sh.sess.state
                  && Gain(PendingMonitor, o) == One(Plays(PendingMonitor, Monitor(pc, p, k)))
                  && (!Plays(PendingMonitor, Monitor(pc, p, k)) ==> o.sh.procs == sh.procs))
  {
  }

  lemma ShellAdvanceTold(c: Policy, s: Sys, i: nat, choice: bool)
    requires ShellOk(c, s) && Enabled(s, Advance(i, choice))
    ensures var s' := Step(c, s, Advance(i, choice)); ShellTold(s') && NoStoppers(s')
  {
    var t, o := s.threads[i], AdvanceThread(c, s.sh, s.threads[i], choice);
    assert ThreadOk(c, s.sh, t) && ReportsTruly(s.sh, t) && !t.Stopper?;
    TallyAfter(PendingMonitor, s.threads, i, o.next, o.spawn);
    if Plays(PendingMonitor, t) {
      TallyHit(PendingMonitor, s.threads, i);
    }
    if t.Monitor? {
      hide Inv, AdvanceMonitor;
      ShellMonitor(s.sh, t.mpc, t.cmd, t.done, choice);
    } else {
      ShellBystander(c, s.sh, t, choice);
      hide Inv, AdvanceThread;
    }
  }

  lemma ShellStep(c: Policy, s: Sys, a: Action)
    requires ShellOk(c, s) && Enabled(s, a) && !a.CallStop?
    ensures ShellOk(c, Step(c, s, a))
  {
    hide Inv, AllReportTruly, ShellTold, NoStoppers, Step, Enabled;
    StepReports(c, s, a);
    StepKeepsIdentity(c, s, a);
    StepKeepsInv(c, s, a);
    if a.Advance? {
      ShellAdvanceTold(c, s, a.i, a.choice);
    } else {
      ShellOutside(c, s, a);
    }
  }

  lemma ShellOutside(c: Policy, s: Sys, a: Action)
    requires ShellOk(c, s) && Enabled(s, a) && !a.Advance? && !a.CallStop?
    ensures ShellTold(Step(c, s, a)) && NoStoppers(Step(c, s, a))
  {
    hide Inv, AllReportTruly;
    match a
    case ProcessExits(p) =>
    case CallReconnect => TallySnoc(PendingMonitor, s.threads, Reconnector(LookUp));
    case CallRemove => TallySnoc(PendingMonitor, s.threads, Remover);
  }

  lemma {:induction false} ShellRun(c: Policy, s: Sys, acts: seq<Action>)
    requires ShellOk(c, s) && Runs(c, s, acts) && NeverStopped(acts)
    ensures ShellOk(c, After(c, s, acts))
    decreases |acts|
  {
    hide ShellOk, Step, Enabled;
    if acts != [] {
      ShellStep(c, s, acts[0]);
      ShellRun(c, Step(c, s, acts[0]), acts[1..]);
    }
  }

  lemma ShellStarts(c: Policy, s: Sys)
    requires Init(s) && IsShell(s.sh.sess)
    ensures ShellOk(c, s)
  {
    InitInv(c, s);
    InitReports(s);
    TalliesSmall(s);
  }

  /** No monitor has its section still to run. */
  predicate MonitorReported(s: Sys) {
    forall i :: 0 <= i < |s.threads| ==> !Plays(PendingMonitor, s.threads[i])
  }

  /**
   A shell that nobody has stopped is Running exactly as long as its monitor has not reported; after
   that it is Errored if Wait returned an error, and Stopped if not.
   */
  lemma ShellEndsExactly(c: Policy, s: Sys, acts: seq<Action>)
    requires Init(s) && IsShell(s.sh.sess) && Runs(c, s, acts) && NeverStopped(acts)
    ensures var t := After(c, s, acts);
            && |t.sh.procs| == 1
            && t.sh.sess.state == if !MonitorReported(t) then StateRunning
                                  else if t.sh.procs[0].failed then StateErrored else StateStopped
  {
    ShellStarts(c, s);
    hide Inv, AllReportTruly, Step, Enabled, Init;
    ShellRun(c, s, acts);
    var t := After(c, s, acts);
    if t.sh.sess.state.StateRunning? {
      var i := TallyWitness(PendingMonitor, t.threads);
    } else {
      forall i | 0 <= i < |t.threads| ensures !Plays(PendingMonitor, t.threads[i]) {
        if Plays(PendingMonitor, t.threads[i]) {
          TallyHit(PendingMonitor, t.threads, i);
        }
      }
    }
  }
}
