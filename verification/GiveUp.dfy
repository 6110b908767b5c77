/** When the reconnect loop gives up on a session whose last subprocess is still live. */
module GiveUp {
  import opened SessionTypes
  import opened Sections
  import opened Lifecycle
  import opened Accounting
  import opened Invariant
  import opened Preservation
  import opened Cycle

  /** A loop that has begun an attempt and not yet cancelled the subprocess it replaces. */
  predicate BeforeCancel(t: Thread) {
    t.Loop? && (t.lpc.AnnounceAttempt? || t.lpc.CancelOld?)
  }

  /** An attempt that has installed nothing has cancelled what was installed, or is about to. */
  ghost predicate RespawnTracked(s: Sys) {
    match LastRespawn(s.sh.log)
    case Original => true
    case Uninstalled => InstalledLive(s.sh) ==> exists i :: 0 <= i < |s.threads| && BeforeCancel(s.threads[i])
    case Respawned(p) => s.sh.sess.cancel == Some(p)
  }

  // ---------------------------------------------------------------- every step keeps track

  /** What one goroutine's step says about the last attempt. */
  predicate TrackPassed(sh: Shared, t: Thread, o: Out) {
    match LastRespawn(o.sh.log)
    case Original => true
    case Uninstalled =>
      InstalledLive(o.sh) ==>
        BeforeCancel(o.next) || (LastRespawn(sh.log) == Uninstalled && InstalledLive(sh) && !BeforeCancel(t))
    case Respawned(p) =>
      o.sh.sess.cancel == Some(p) || (LastRespawn(sh.log) == Respawned(p) && sh.sess.cancel == o.sh.sess.cancel)
  }

  /** A step that records nothing revives nothing, and a loop leaves its first two steps only by the cancel. */
  lemma QuietPasses(c: Policy, sh: Shared, t: Thread, choice: bool)
    requires HandlesOk(sh) && ThreadOk(c, sh, t) && !Records(t)
    ensures TrackPassed(sh, t, AdvanceThread(c, sh, t, choice))
  {
    hide AdvanceLoop, AdvanceMonitor, AdvanceProber;
    QuietKeepsCounts(c, sh, t, choice);
    match t
    case Loop(pc) => QuietLoop(c, sh, pc, choice);
    case Monitor(pc, p, k) => QuietMonitor(sh, pc, p, k, choice);
    case Prober(pc) => QuietProber(c, sh, pc, choice);
    case Stopper(pc) => QuietStopper(sh, pc, choice);
    case _ =>
  }

  predicate NoneRevived(sh: Shared, o: Out) {
    o.sh.sess.cancel == sh.sess.cancel && (InstalledLive(o.sh) ==> InstalledLive(sh))
  }

  lemma QuietLoop(c: Policy, sh: Shared, pc: LoopPc, choice: bool)
    requires HandlesOk(sh) && ThreadOk(c, sh, Loop(pc)) && !Records(Loop(pc))
    ensures var o := AdvanceLoop(c, sh, pc, choice);
            NoneRevived(sh, o) && (BeforeCancel(Loop(pc)) && InstalledLive(o.sh) ==> BeforeCancel(o.next))
  {
  }

  lemma QuietMonitor(sh: Shared, pc: MonitorPc, p: nat, k: nat, choice: bool)
    ensures NoneRevived(sh, AdvanceMonitor(sh, pc, p, k, choice))
  {
  }

  lemma QuietProber(c: Policy, sh: Shared, pc: ProberPc, choice: bool)
    ensures NoneRevived(sh, AdvanceProber(c, sh, pc, choice))
  {
  }

  lemma QuietStopper(sh: Shared, pc: StopPc, choice: bool)
    ensures NoneRevived(sh, AdvanceStopper(sh, pc, choice))
  {
  }

  lemma HeaderPasses(c: Policy, sh: Shared, choice: bool)
    ensures TrackPassed(sh, Loop(CheckHeader), AdvanceLoop(c, sh, CheckHeader, choice))
  {
    hide LastRespawn;
    RespawnSnoc(sh.log, AttemptBegun(sh.sess.attempts + 1));
    RespawnSnoc(sh.log, LoopGaveUp);
  }

  lemma InstallPasses(c: Policy, sh: Shared, p: nat, k: nat, choice: bool)
    ensures TrackPassed(sh, Loop(InstallFresh(p, k)), AdvanceLoop(c, sh, InstallFresh(p, k), choice))
  {
    hide LastRespawn;
    RespawnSnoc(sh.log, Installed(p));
  }

  lemma ProbePasses(c: Policy, sh: Shared, ok: bool, choice: bool)
    ensures TrackPassed(sh, Prober(ApplyResult(ok)), AdvanceProber(c, sh, ApplyResult(ok), choice))
  {
    hide AdvanceProber;
    QuietProber(c, sh, ApplyResult(ok), choice);
    ProbeKeepsRespawn(c, sh, ok, choice);
  }

  lemma ManualPasses(sh: Shared)
    ensures TrackPassed(sh, Reconnector(TriggerManual), Trigger(sh, true, Finished))
  {
    hide LastRespawn;
    RespawnSnoc(sh.log, ManualReset);
    assert sh.log + [] == sh.log;
  }

  lemma ThreadPasses(c: Policy, sh: Shared, t: Thread, choice: bool)
    requires HandlesOk(sh) && ThreadOk(c, sh, t)
    ensures TrackPassed(sh, t, AdvanceThread(c, sh, t, choice))
  {
    if !Records(t) {
      QuietPasses(c, sh, t, choice);
    } else {
      match t
      case Loop(CheckHeader) => HeaderPasses(c, sh, choice);
      case Loop(InstallFresh(p, k)) => InstallPasses(c, sh, p, k, choice);
      case Prober(ApplyResult(ok)) => ProbePasses(c, sh, ok, choice);
      case Reconnector(TriggerManual) => ManualPasses(sh);
    }
  }

  lemma AdvanceTracks(c: Policy, s: Sys, i: nat, choice: bool)
    requires Inv(c, s) && RespawnTracked(s) && Enabled(s, Advance(i, choice))
    ensures RespawnTracked(Step(c, s, Advance(i, choice)))
  {
    var t, o := s.threads[i], AdvanceThread(c, s.sh, s.threads[i], choice);
    var s' := Step(c, s, Advance(i, choice));
    assert ThreadOk(c, s.sh, t);
    hide Inv, AdvanceThread, ThreadOk, HandlesOk;
    ThreadPasses(c, s.sh, t, choice);
    if LastRespawn(s'.sh.log) == Uninstalled && InstalledLive(s'.sh) {
      if BeforeCancel(o.next) {
        assert BeforeCancel(s'.threads[i]);
      } else {
        var j :| 0 <= j < |s.threads| && BeforeCancel(s.threads[j]);
        assert BeforeCancel(s'.threads[j]);
      }
    }
  }

  lemma StepTracks(c: Policy, s: Sys, a: Action)
    requires Inv(c, s) && RespawnTracked(s) && Enabled(s, a)
    ensures RespawnTracked(Step(c, s, a))
  {
    if a.Advance? {
      AdvanceTracks(c, s, a.i, a.choice);
    } else {
      hide Inv, AdvanceThread;
      var s' := Step(c, s, a);
      assert InstalledLive(s'.sh) ==> InstalledLive(s.sh);
      if j :| 0 <= j < |s.threads| && BeforeCancel(s.threads[j]) {
        assert BeforeCancel(s'.threads[j]);
      }
    }
  }

  lemma {:induction false} RunTracks(c: Policy, s: Sys, acts: seq<Action>)
    requires Inv(c, s) && RespawnTracked(s) && Runs(c, s, acts)
    ensures RespawnTracked(After(c, s, acts))
    decreases |acts|
  {
    hide Inv, Step, Enabled, RespawnTracked;
    if acts != [] {
      StepTracks(c, s, acts[0]);
      StepKeepsInv(c, s, acts[0]);
      RunTracks(c, Step(c, s, acts[0]), acts[1..]);
    }
  }

  lemma ReachableTracked(c: Policy, s: Sys, acts: seq<Action>)
    requires Init(s) && Runs(c, s, acts)
    ensures Inv(c, After(c, s, acts)) && RespawnTracked(After(c, s, acts))
  {
    InitInv(c, s);
    assert s.sh.log == [];
    hide Inv, Step, Enabled;
    RunKeepsInv(c, s, acts);
    RunTracks(c, s, acts);
  }

  // ---------------------------------------------------------------- the theorems

  /** The last attempt installed a subprocess, and that is neither cancelled nor reaped. */
  predicate LastInstalledLives(sh: Shared) {
    var last := LastRespawn(sh.log);
    last.Respawned? && last.p < |sh.procs| && sh.procs[last.p].Live()
  }

  /** A loop at its header finds no attempt left. */
  predicate GivesUp(c: Policy, s: Sys, i: nat) {
    i < |s.threads| && s.threads[i] == Loop(CheckHeader) && HeaderSection(c, s.sh.sess).1.GaveUp?
  }

  lemma NobodyBeforeCancel(c: Policy, s: Sys, i: nat)
    requires Inv(c, s) && i < |s.threads| && s.threads[i] == Loop(CheckHeader)
    ensures forall j :: 0 <= j < |s.threads| ==> !BeforeCancel(s.threads[j])
  {
    forall j | 0 <= j < |s.threads| ensures !BeforeCancel(s.threads[j]) {
      if j != i {
        OneLoop(s, i, j);
      }
    }
  }

  lemma GivingUpHasAttempts(c: Policy, s: Sys, i: nat)
    requires Inv(c, s) && GivesUp(c, s, i)
    ensures LastRespawn(s.sh.log) != Original
  {
    CountedIsBegun(s.sh.log);
  }

  /**
   Giving up leaves the installed subprocess live if and only if the last attempt did install one and
   nobody has cancelled or reaped that since: after an attempt that failed, giving up is clean.
   */
  lemma GiveUpCleanExactly(c: Policy, s: Sys, acts: seq<Action>, i: nat)
    requires Init(s) && Runs(c, s, acts) && GivesUp(c, After(c, s, acts), i)
    ensures var t := After(c, s, acts);
            var t' := Step(c, t, Advance(i, false));
            && t'.sh.sess.state.StateErrored?
            && (InstalledLive(t'.sh) <==> LastInstalledLives(t.sh))
  {
    hide Inv, Step, Enabled, Init;
    var t := After(c, s, acts);
    ReachableTracked(c, s, acts);
    GiveUpStep(c, t, i);
  }

  lemma GiveUpStep(c: Policy, t: Sys, i: nat)
    requires Inv(c, t) && RespawnTracked(t) && GivesUp(c, t, i)
    ensures var t' := Step(c, t, Advance(i, false));
            && t'.sh.sess.state.StateErrored?
            && (InstalledLive(t'.sh) <==> LastInstalledLives(t.sh))
  {
    NobodyBeforeCancel(c, t, i);
    GivingUpHasAttempts(c, t, i);
    hide Inv;
  }


  /** The cycle's loop has begun an attempt, and may check its header again. */
  predicate HasBegun(s: Sys, i: nat) {
    Cycling(s, i) && (s.threads[i].Loop? && MayCheck(s.threads[i].lpc) ==> LastRespawn(s.sh.log) == Uninstalled)
  }

  lemma OthersKeepRespawn(c: Policy, sh: Shared, t: Thread, choice: bool)
    requires !t.Loop?
    ensures LastRespawn(AdvanceThread(c, sh, t, choice).sh.log) == LastRespawn(sh.log)
  {
    if !Records(t) {
      QuietKeepsCounts(c, sh, t, choice);
    } else {
      match t
      case Prober(ApplyResult(ok)) => ProbeKeepsRespawn(c, sh, ok, choice);
      case Reconnector(TriggerManual) => ManualKeepsRespawn(sh);
    }
  }

  lemma ProbeKeepsRespawn(c: Policy, sh: Shared, ok: bool, choice: bool)
    ensures LastRespawn(AdvanceProber(c, sh, ApplyResult(ok), choice).sh.log) == LastRespawn(sh.log)
  {
    hide LastRespawn;
    RespawnSnoc(sh.log, ProbeSucceeded);
    RespawnSnoc(sh.log, ProbeFailed);
    RespawnSnoc(sh.log + [ProbeFailed], ProbeTriggered);
    assert sh.log + [ProbeFailed, ProbeTriggered] == sh.log + [ProbeFailed] + [ProbeTriggered];
    assert sh.log + [] == sh.log;
  }

  lemma ManualKeepsRespawn(sh: Shared)
    ensures LastRespawn(Trigger(sh, true, Finished).sh.log) == LastRespawn(sh.log)
  {
    RespawnSnoc(sh.log, ManualReset);
    assert sh.log + [] == sh.log;
  }

  lemma LoopKeepsBegun(c: Policy, sh: Shared, pc: LoopPc, choice: bool)
    requires pc.CheckHeader? || (MayCheck(pc) ==> LastRespawn(sh.log) == Uninstalled)
    ensures var o := AdvanceLoop(c, sh, pc, choice);
            && (o.next.Loop? || o.next.Finished?)
            && (o.next.Loop? && MayCheck(o.next.lpc) ==> LastRespawn(o.sh.log) == Uninstalled)
  {
    RespawnSnoc(sh.log, AttemptBegun(sh.sess.attempts + 1));
  }

  lemma StepKeepsBegun(c: Policy, s: Sys, i: nat, a: Action)
    requires Inv(c, s) && Enabled(s, a) && Cycling(s, i) && (ChecksHeader(s, i, a) || HasBegun(s, i))
    ensures HasBegun(Step(c, s, a), i)
  {
    hide SharedOk, ThreadsOk, TalliesOk, AdvanceThread;
    if a.Advance? && a.i == i {
      LoopKeepsBegunHere(c, s, i, a.choice);
    } else if a.Advance? {
      if s.threads[i].Loop? {
        NotTheLoop(c, s, i, a.i);
        OthersKeepRespawn(c, s.sh, s.threads[a.i], a.choice);
      }
    }
  }

  lemma NotTheLoop(c: Policy, s: Sys, i: nat, j: nat)
    requires Inv(c, s) && i < |s.threads| && s.threads[i].Loop? && j < |s.threads| && i != j
    ensures !s.threads[j].Loop?
  {
    OneLoop(s, i, j);
  }

  lemma LoopKeepsBegunHere(c: Policy, s: Sys, i: nat, choice: bool)
    requires Enabled(s, Advance(i, choice)) && Cycling(s, i)
    requires s.threads[i] == Loop(CheckHeader) || HasBegun(s, i)
    ensures HasBegun(Step(c, s, Advance(i, choice)), i)
  {
    hide AdvanceLoop;
    LoopKeepsBegun(c, s.sh, s.threads[i].lpc, choice);
  }

  lemma {:induction false} RunKeepsBegun(c: Policy, s: Sys, i: nat, acts: seq<Action>)
    requires Inv(c, s) && Cycling(s, i) && HasBegun(s, i) && Runs(c, s, acts)
    ensures HasBegun(After(c, s, acts), i)
    decreases |acts|
  {
    hide Inv, Step, Enabled;
    if acts != [] {
      StepKeepsBegun(c, s, i, acts[0]);
      StepKeepsInv(c, s, acts[0]);
      RunKeepsBegun(c, Step(c, s, acts[0]), i, acts[1..]);
    }
  }

  /** Before its first header check a loop just waits at it. */
  lemma WaitsAtHeader(c: Policy, s: Sys, i: nat, a: Action)
    requires Enabled(s, a) && i < |s.threads| && s.threads[i] == Loop(CheckHeader) && !ChecksHeader(s, i, a)
    ensures i < |Step(c, s, a).threads| && Step(c, s, a).threads[i] == Loop(CheckHeader)
  {
    hide AdvanceThread;
  }

  lemma {:induction false} SecondCheck(c: Policy, s: Sys, i: nat, cycle: seq<Action>)
    requires Inv(c, s) && i < |s.threads| && s.threads[i] == Loop(CheckHeader)
    requires Runs(c, s, cycle) && Headers(c, s, i, cycle) >= 1
    ensures HasBegun(After(c, s, cycle), i)
    decreases |cycle|
  {
    hide Inv, Step, Enabled;
    StepKeepsInv(c, s, cycle[0]);
    if ChecksHeader(s, i, cycle[0]) {
      StepKeepsBegun(c, s, i, cycle[0]);
      RunKeepsBegun(c, Step(c, s, cycle[0]), i, cycle[1..]);
    } else {
      WaitsAtHeader(c, s, i, cycle[0]);
      SecondCheck(c, Step(c, s, cycle[0]), i, cycle[1..]);
    }
  }

  lemma BegunIsClean(c: Policy, u: Sys, i: nat)
    requires Inv(c, u) && RespawnTracked(u) && HasBegun(u, i) && u.threads[i] == Loop(CheckHeader)
    ensures !InstalledLive(u.sh)
  {
    NobodyBeforeCancel(c, u, i);
  }

  /** A loop that is back at its header after an attempt of its own never gives up on a live subprocess. */
  lemma CycleGivesUpClean(c: Policy, s: Sys, acts: seq<Action>, i: nat, cycle: seq<Action>)
    requires Init(s) && Runs(c, s, acts)
    requires var t := After(c, s, acts);
             && i < |t.threads| && t.threads[i] == Loop(CheckHeader)
             && Runs(c, t, cycle) && Headers(c, t, i, cycle) >= 1
             && i < |After(c, t, cycle).threads| && After(c, t, cycle).threads[i] == Loop(CheckHeader)
    ensures !InstalledLive(After(c, After(c, s, acts), cycle).sh)
  {
    hide Inv, Step, Enabled, InstalledLive, RespawnTracked, HasBegun;
    var t := After(c, s, acts);
    var u := After(c, t, cycle);
    ReachableTracked(c, s, acts);
    SecondCheck(c, t, i, cycle);
    RunKeepsInv(c, t, cycle);
    RunTracks(c, t, cycle);
    BegunIsClean(c, u, i);
  }
}
