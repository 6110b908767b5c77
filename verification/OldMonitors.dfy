/** When the monitor of a replaced subprocess disturbs the state of the new one. */
module OldMonitors {
  import opened SessionTypes
  import opened Sections
  import opened Lifecycle
  import opened Invariant
  import opened Preservation
  import opened Reach
  import opened Drive

  /** A monitor of another subprocess than p. */
  predicate IsOld(t: Thread, p: nat) {
    t.Monitor? && t.cmd != p
  }

  /** A monitor of another subprocess than p that still has its section to run. */
  predicate OldPending(t: Thread, p: nat) {
    IsOld(t, p) && BeforeReport(t)
  }

  predicate NoneOld(s: Sys, p: nat) {
    forall i :: 0 <= i < |s.threads| ==> !OldPending(s.threads[i], p)
  }

  predicate InstalledIs(s: Sys, p: nat) {
    s.sh.sess.cancel == Some(p)
  }

  predicate Absorbs(state: SessionState) {
    state.StateReconnecting? || state.StateStalled?
  }

  // ---------------------------------------------------------------- one report

  lemma ReplacedIsReconnectable(c: Policy, s: Sys, i: nat)
    requires Inv(c, s) && i < |s.threads| && s.threads[i].Monitor? && s.sh.sess.cancel != Some(s.threads[i].cmd)
    ensures s.sh.sess.reconnectable
  {
    assert ThreadOk(c, s.sh, s.threads[i]);
  }

  lemma ReportChanges(c: Policy, s: Sys, i: nat, choice: bool)
    requires Inv(c, s) && i < |s.threads| && s.threads[i].Monitor? && s.threads[i].mpc.ReportExit?
    requires s.sh.sess.cancel != Some(s.threads[i].cmd)
    ensures Step(c, s, Advance(i, choice)).sh.sess.state == s.sh.sess.state <==> Absorbs(s.sh.sess.state)
  {
    ReplacedIsReconnectable(c, s, i);
    hide Inv;
  }

  /** The report of a replaced subprocess's monitor leaves the state alone if and only if that is Reconnecting or Stalled. */
  lemma OldReportHarmlessExactly(c: Policy, s: Sys, acts: seq<Action>, i: nat, choice: bool)
    requires Init(s) && Runs(c, s, acts)
    requires var t := After(c, s, acts);
             && i < |t.threads| && t.threads[i].Monitor? && t.threads[i].mpc.ReportExit?
             && t.sh.sess.cancel != Some(t.threads[i].cmd)
    ensures var t := After(c, s, acts);
            Step(c, t, Advance(i, choice)).sh.sess.state == t.sh.sess.state <==> Absorbs(t.sh.sess.state)
  {
    hide Inv, Step;
    Reachable(c, s, acts);
    ReportChanges(c, After(c, s, acts), i, choice);
  }

  // ---------------------------------------------------------------- all that old monitors can still do

  /** As long as p is the installed subprocess, no step of an older one's monitor changes the state. */
  ghost predicate OldHarmless(c: Policy, s: Sys, p: nat) {
    forall t, i: nat, choice ::
      Leads(c, s, t) && InstalledIs(t, p) && Enabled(t, Advance(i, choice)) && IsOld(t.threads[i], p)
      ==> Step(c, t, Advance(i, choice)).sh.sess.state == t.sh.sess.state
  }

  /** While p is installed no older monitor is pending, and once it is replaced it never comes back. */
  ghost predicate NoneOldWhileInstalled(s: Sys, p: nat) {
    && p < |s.sh.procs|
    && (if InstalledIs(s, p) then NoneOld(s, p)
        else forall i :: 0 <= i < |s.threads| ==> !HoldsFresh(s.threads[i], p))
  }

  predicate HoldsFresh(t: Thread, p: nat) {
    t.Loop? && t.lpc.InstallFresh? && t.lpc.p == p
  }

  /** What a loop's step leaves of p: it stays installed or is replaced, and is never installed again. */
  predicate LoopLeaves(sh: Shared, o: Out, p: nat) {
    && p < |o.sh.procs|
    && (o.sh.sess.cancel == Some(p) ==> sh.sess.cancel == Some(p))
    && (o.sh.sess.cancel != Some(p) ==> !HoldsFresh(o.next, p))
    && (o.sh.sess.cancel == Some(p) && o.spawn.Some? ==> !OldPending(o.spawn.value, p))
    && !o.next.Monitor? && (o.spawn.Some? ==> !o.spawn.value.Loop?)
  }

  lemma LoopInstalls(c: Policy, sh: Shared, q: nat, k: nat, choice: bool, p: nat)
    requires LoopOk(c, sh, InstallFresh(q, k)) && p < |sh.procs| && q != p
    ensures LoopLeaves(sh, AdvanceLoop(c, sh, InstallFresh(q, k), choice), p)
  {
  }

  lemma LoopElse(c: Policy, sh: Shared, pc: LoopPc, choice: bool, p: nat)
    requires LoopOk(c, sh, pc) && p < |sh.procs| && !pc.InstallFresh?
    ensures LoopLeaves(sh, AdvanceLoop(c, sh, pc, choice), p)
  {
    hide TryOk, OptsFromSession, InstalledLive;
  }

  lemma OtherInstalls(c: Policy, sh: Shared, t: Thread, choice: bool, p: nat)
    requires !t.Loop? && |sh.procs| == |sh.chans|
    ensures var o := AdvanceThread(c, sh, t, choice);
            && |o.sh.procs| == |sh.procs| && o.sh.sess.cancel == sh.sess.cancel
            && !HoldsFresh(o.next, p) && (OldPending(o.next, p) ==> OldPending(t, p))
            && (o.spawn.Some? ==> o.spawn.value == Loop(CheckHeader))
  {
    StepGrows(c, sh, t, choice);
  }

  lemma LoopFacts(c: Policy, s: Sys, i: nat)
    requires Inv(c, s) && i < |s.threads| && s.threads[i].Loop?
    ensures LoopOk(c, s.sh, s.threads[i].lpc)
    ensures forall j :: 0 <= j < |s.threads| && j != i ==> !s.threads[j].Loop?
  {
    assert ThreadOk(c, s.sh, s.threads[i]);
    forall j | 0 <= j < |s.threads| && j != i ensures !s.threads[j].Loop? {
      OneLoop(s, i, j);
    }
  }

  lemma InstallNotOld(c: Policy, sh: Shared, q: nat, k: nat, p: nat)
    requires LoopOk(c, sh, InstallFresh(q, k)) && (sh.sess.cancel == Some(p) || !HoldsFresh(Loop(InstallFresh(q, k)), p))
    ensures q != p
  {
  }

  lemma LoopLeft(c: Policy, s: Sys, i: nat, choice: bool, p: nat)
    requires i < |s.threads| && s.threads[i].Loop? && LoopOk(c, s.sh, s.threads[i].lpc) && NoneOldWhileInstalled(s, p)
    ensures LoopLeaves(s.sh, AdvanceLoop(c, s.sh, s.threads[i].lpc, choice), p)
  {
    hide LoopOk, LoopLeaves, AdvanceLoop;
    var pc := s.threads[i].lpc;
    assert s.sh.sess.cancel == Some(p) || !HoldsFresh(s.threads[i], p);
    match pc
    case InstallFresh(q, k) => InstallNotOld(c, s.sh, q, k, p); LoopInstalls(c, s.sh, q, k, choice, p);
    case _ => LoopElse(c, s.sh, pc, choice, p);
  }

  lemma LoopKeepsNoneOld(c: Policy, s: Sys, i: nat, choice: bool, p: nat)
    requires Inv(c, s) && NoneOldWhileInstalled(s, p) && Enabled(s, Advance(i, choice)) && s.threads[i].Loop?
    ensures NoneOldWhileInstalled(Step(c, s, Advance(i, choice)), p)
  {
    hide Inv, AdvanceLoop, LoopOk, OldPending;
    LoopFacts(c, s, i);
    LoopLeft(c, s, i, choice, p);
    var s' := Step(c, s, Advance(i, choice));
    forall j | 0 <= j < |s'.threads|
      ensures if InstalledIs(s', p) then !OldPending(s'.threads[j], p) else !HoldsFresh(s'.threads[j], p)
    {
      if j < |s.threads| && j != i {
        assert s'.threads[j] == s.threads[j];
      }
      LoopIsNotMonitor(s'.threads[j], p);
    }
  }

  lemma OtherKeepsNoneOld(c: Policy, s: Sys, i: nat, choice: bool, p: nat)
    requires |s.sh.procs| == |s.sh.chans| && NoneOldWhileInstalled(s, p)
    requires Enabled(s, Advance(i, choice)) && !s.threads[i].Loop?
    ensures NoneOldWhileInstalled(Step(c, s, Advance(i, choice)), p)
  {
    hide AdvanceThread, OldPending, HoldsFresh;
    OtherInstalls(c, s.sh, s.threads[i], choice, p);
    var s' := Step(c, s, Advance(i, choice));
    forall j | 0 <= j < |s'.threads|
      ensures if InstalledIs(s', p) then !OldPending(s'.threads[j], p) else !HoldsFresh(s'.threads[j], p)
    {
      if j < |s.threads| && j != i {
        assert s'.threads[j] == s.threads[j];
      }
      LoopIsNotMonitor(s'.threads[j], p);
    }
  }

  lemma LoopIsNotMonitor(t: Thread, p: nat)
    ensures t.Loop? ==> !OldPending(t, p)
    ensures !t.Loop? || t == Loop(CheckHeader) ==> !HoldsFresh(t, p)
    ensures !t.Monitor? ==> !OldPending(t, p)
  {
  }

  lemma StepKeepsNoneOld(c: Policy, s: Sys, a: Action, p: nat)
    requires Inv(c, s) && NoneOldWhileInstalled(s, p) && Enabled(s, a)
    ensures NoneOldWhileInstalled(Step(c, s, a), p)
  {
    if a.Advance? {
      hide Step;
      if s.threads[a.i].Loop? {
        LoopKeepsNoneOld(c, s, a.i, a.choice, p);
      } else {
        OtherKeepsNoneOld(c, s, a.i, a.choice, p);
      }
    } else {
      hide Inv;
    }
  }

  lemma {:induction false} RunKeepsNoneOld(c: Policy, s: Sys, acts: seq<Action>, p: nat)
    requires Inv(c, s) && NoneOldWhileInstalled(s, p) && Runs(c, s, acts)
    ensures NoneOldWhileInstalled(After(c, s, acts), p)
    decreases |acts|
  {
    hide Inv, Step, Enabled, NoneOldWhileInstalled;
    if acts != [] {
      StepKeepsNoneOld(c, s, acts[0], p);
      StepKeepsInv(c, s, acts[0]);
      RunKeepsNoneOld(c, Step(c, s, acts[0]), acts[1..], p);
    }
  }

  /** A monitor that has reported changes no state any more. */
  lemma ReportedIsHarmless(c: Policy, s: Sys, i: nat, choice: bool)
    requires Enabled(s, Advance(i, choice)) && s.threads[i].Monitor? && !BeforeReport(s.threads[i])
    ensures Step(c, s, Advance(i, choice)).sh.sess.state == s.sh.sess.state
  {
  }

  lemma NoneOldIsHarmless(c: Policy, s: Sys, p: nat)
    requires Inv(c, s) && InstalledIs(s, p) && NoneOld(s, p)
    ensures OldHarmless(c, s, p)
  {
    InstalledStarted(c, s, p);
    hide Inv, Step, Enabled, BeforeReport;
    forall t, i: nat, choice
      | Leads(c, s, t) && InstalledIs(t, p) && Enabled(t, Advance(i, choice)) && IsOld(t.threads[i], p)
      ensures Step(c, t, Advance(i, choice)).sh.sess.state == t.sh.sess.state
    {
      var acts :| Runs(c, s, acts) && After(c, s, acts) == t;
      RunKeepsNoneOld(c, s, acts, p);
      EnabledInRange(t, i, choice);
      assert !OldPending(t.threads[i], p);
      ReportedIsHarmless(c, t, i, choice);
    }
  }

  lemma EnabledInRange(s: Sys, i: nat, choice: bool)
    requires Enabled(s, Advance(i, choice))
    ensures i < |s.threads|
  {
  }

  lemma InstalledStarted(c: Policy, s: Sys, p: nat)
    requires Inv(c, s) && InstalledIs(s, p)
    ensures p < |s.sh.procs|
  {
  }

  // ---------------------------------------------------------------- removed while Reconnecting or Stalled

  /** Nobody changes the state of a removed session that absorbs every report. */
  predicate Frozen(s: Sys, state: SessionState) {
    && !s.sh.sess.registered && s.sh.sess.reconnectable
    && s.sh.sess.state == state && Absorbs(state)
  }

  lemma FrozenThread(c: Policy, sh: Shared, t: Thread, choice: bool)
    requires !sh.sess.registered && sh.sess.reconnectable && Absorbs(sh.sess.state)
    ensures var sess := AdvanceThread(c, sh, t, choice).sh.sess;
            !sess.registered && sess.reconnectable && sess.state == sh.sess.state
  {
    hide AdvanceLoop;
    match t
    case Loop(pc) => FrozenLoop(c, sh, pc, choice);
    case Monitor(pc, p, k) =>
    case Prober(pc) =>
    case Stopper(pc) =>
    case _ =>
  }

  lemma FrozenLoop(c: Policy, sh: Shared, pc: LoopPc, choice: bool)
    requires !sh.sess.registered && sh.sess.reconnectable && Absorbs(sh.sess.state)
    ensures var sess := AdvanceLoop(c, sh, pc, choice).sh.sess;
            !sess.registered && sess.reconnectable && sess.state == sh.sess.state
  {
  }

  lemma FrozenStep(c: Policy, s: Sys, a: Action, state: SessionState)
    requires Frozen(s, state) && Enabled(s, a)
    ensures Frozen(Step(c, s, a), state)
  {
    hide AdvanceThread;
    if a.Advance? {
      FrozenThread(c, s.sh, s.threads[a.i], a.choice);
    }
  }

  lemma {:induction false} FrozenRun(c: Policy, s: Sys, acts: seq<Action>, state: SessionState)
    requires Frozen(s, state) && Runs(c, s, acts)
    ensures Frozen(After(c, s, acts), state)
    decreases |acts|
  {
    hide Step, Enabled;
    if acts != [] {
      FrozenStep(c, s, acts[0], state);
      FrozenRun(c, Step(c, s, acts[0]), acts[1..], state);
    }
  }

  lemma FrozenIsHarmless(c: Policy, s: Sys, p: nat)
    requires Frozen(s, s.sh.sess.state)
    ensures OldHarmless(c, s, p)
  {
    hide Step, Ready;
    forall t, i: nat, choice
      | Leads(c, s, t) && InstalledIs(t, p) && Enabled(t, Advance(i, choice)) && IsOld(t.threads[i], p)
      ensures Step(c, t, Advance(i, choice)).sh.sess.state == t.sh.sess.state
    {
      var acts :| Runs(c, s, acts) && After(c, s, acts) == t;
      FrozenRun(c, s, acts, s.sh.sess.state);
      FrozenStep(c, t, Advance(i, choice), s.sh.sess.state);
    }
  }

  // ---------------------------------------------------------------- otherwise a pending old monitor can disturb

  lemma MonitorStarted(c: Policy, s: Sys, i: nat)
    requires Inv(c, s) && i < |s.threads| && s.threads[i].Monitor?
    ensures s.threads[i].cmd < |s.sh.procs|
  {
    assert ThreadOk(c, s.sh, s.threads[i]);
  }

  /** The old monitor is brought to its report, in a state that does not absorb it. */
  lemma OldCanDisturb(c: Policy, s: Sys, i: nat, p: nat) returns (t: Sys)
    requires Inv(c, s) && InstalledIs(s, p) && i < |s.threads| && OldPending(s.threads[i], p) && !Absorbs(s.sh.sess.state)
    ensures Comes(c, s, t) && InstalledIs(t, p) && i < |t.threads| && IsOld(t.threads[i], p)
    ensures Enabled(t, Advance(i, false)) && Step(c, t, Advance(i, false)).sh.sess.state != t.sh.sess.state
    ensures t.sh.sess == s.sh.sess
  {
    MonitorStarted(c, s, i);
    t := MonitorReaches(c, s, i);
    ComesLeads(c, s, t);
    ComesKeepsInv(c, s, t);
    hide Inv, Step, Comes;
    ReportChanges(c, t, i, false);
  }

  /** A stop call makes any state one that does not absorb reports. */
  lemma StopEntered(c: Policy, s: Sys, i: nat) returns (t: Sys)
    requires Inv(c, s) && s.sh.sess.registered && i < |s.threads|
    ensures Leads(c, s, t) && Inv(c, t) && t.sh.sess == s.sh.sess.(state := StateStopping)
    ensures i < |t.threads| && t.threads[i] == s.threads[i]
  {
    hide Inv, Comes, Leads;
    var called := Step(c, s, CallStop);
    t := Step(c, called, Advance(|s.threads|, false));
    StepKeepsInv(c, s, CallStop);
    StepKeepsInv(c, called, Advance(|s.threads|, false));
    Next(c, called, Advance(|s.threads|, false));
    ComesLeads(c, called, t);
    LeadsOn(c, s, CallStop, t);
  }

  lemma OldIsHarmful(c: Policy, s: Sys, i: nat, p: nat)
    requires Inv(c, s) && InstalledIs(s, p) && i < |s.threads| && OldPending(s.threads[i], p)
    requires s.sh.sess.registered || !Absorbs(s.sh.sess.state)
    ensures !OldHarmless(c, s, p)
  {
    hide Inv, Comes, Leads, Step, OldPending, IsOld;
    if !Absorbs(s.sh.sess.state) {
      var t := OldCanDisturb(c, s, i, p);
      ComesLeads(c, s, t);
    } else {
      var mid := StopEntered(c, s, i);
      var t := OldCanDisturb(c, mid, i, p);
      ComesLeads(c, mid, t);
      LeadsThen(c, s, mid, t);
    }
  }

  // ---------------------------------------------------------------- the theorems

  /** Nothing an older monitor does can change the state before the next respawn. */
  predicate Undisturbed(s: Sys, p: nat) {
    NoneOld(s, p) || (!s.sh.sess.registered && Absorbs(s.sh.sess.state))
  }

  lemma AbsorbingIsReconnectable(c: Policy, s: Sys, p: nat)
    requires Inv(c, s) && InstalledIs(s, p) && Absorbs(s.sh.sess.state)
    ensures s.sh.sess.reconnectable
  {
  }

  /**
   Whenever p is installed: until the next respawn no step of an older subprocess's monitor changes
   the state, whatever else happens, if and only if no such monitor still has its section to run, or
   the session was removed while Reconnecting or Stalled.
   */
  lemma OldHarmlessExactly(c: Policy, s: Sys, acts: seq<Action>, p: nat)
    requires Init(s) && Runs(c, s, acts) && InstalledIs(After(c, s, acts), p)
    ensures var t := After(c, s, acts); OldHarmless(c, t, p) <==> Undisturbed(t, p)
  {
    hide Inv, Step, Enabled, Leads;
    Reachable(c, s, acts);
    var t := After(c, s, acts);
    if NoneOld(t, p) {
      NoneOldIsHarmless(c, t, p);
    } else if Undisturbed(t, p) {
      AbsorbingIsReconnectable(c, t, p);
      FrozenIsHarmless(c, t, p);
    } else {
      var i :| 0 <= i < |t.threads| && OldPending(t.threads[i], p);
      OldIsHarmful(c, t, i, p);
    }
  }

  /** A loop is about to install its fresh subprocess p, and will. */
  predicate Installs(s: Sys, i: nat, p: nat, k: nat) {
    i < |s.threads| && s.threads[i] == Loop(InstallFresh(p, k)) && InstallSection(s.sh.sess, p, k).1
  }

  lemma InstallStep(c: Policy, s: Sys, i: nat, p: nat, k: nat)
    requires Installs(s, i, p, k)
    ensures var s' := Step(c, s, Advance(i, false));
            InstalledIs(s', p) && s'.sh.sess.state.StateRunning? && (NoneOld(s', p) <==> NoneOld(s, p))
  {
    var s' := Step(c, s, Advance(i, false));
    forall j | 0 <= j < |s.threads| ensures OldPending(s'.threads[j], p) <==> OldPending(s.threads[j], p) {}
  }

  /** A respawn is safe from the monitors of the subprocesses before it if and only if all of these have reported by then. */
  lemma RespawnUndisturbedExactly(c: Policy, s: Sys, acts: seq<Action>, i: nat, p: nat, k: nat)
    requires Init(s) && Runs(c, s, acts) && Installs(After(c, s, acts), i, p, k)
    ensures var t := After(c, s, acts); OldHarmless(c, Step(c, t, Advance(i, false)), p) <==> NoneOld(t, p)
  {
    var t := After(c, s, acts);
    Reachable(c, s, acts);
    StepKeepsInv(c, t, Advance(i, false));
    InstallStep(c, t, i, p, k);
    var t' := Step(c, t, Advance(i, false));
    hide Inv, Step, Enabled, Leads, OldPending;
    if NoneOld(t, p) {
      NoneOldIsHarmless(c, t', p);
    } else {
      var j :| 0 <= j < |t'.threads| && OldPending(t'.threads[j], p);
      OldIsHarmful(c, t', j, p);
    }
  }
}
