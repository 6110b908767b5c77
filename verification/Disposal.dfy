/** What becomes of a subprocess that a stop call or a reconnect loop gets rid of. */
module Disposal {
  import opened SessionTypes
  import opened Sections
  import opened Lifecycle
  import opened Invariant
  import opened Preservation

  /** Told to end, and then either forced to or seen to. */
  predicate Disposed(p: Proc) {
    p.cancelled && (p.killed || p.waits >= 1)
  }

  predicate CancelledAt(sh: Shared, h: Option<nat>) {
    h.Some? ==> h.value < |sh.procs| && sh.procs[h.value].cancelled
  }

  predicate DisposedAt(sh: Shared, h: Option<nat>) {
    h.Some? ==> h.value < |sh.procs| && Disposed(sh.procs[h.value])
  }

  /** A channel is closed only after its own subprocess was reaped. */
  predicate ClosedAreReaped(sh: Shared) {
    |sh.chans| == |sh.procs| && forall k :: 0 <= k < |sh.chans| && sh.chans[k] > 0 ==> sh.procs[k].waits >= 1
  }

  /** How far the goroutine has got in disposing of a subprocess. */
  predicate Progress(sh: Shared, t: Thread) {
    match t
    case Stopper(AwaitStopped(h)) => CancelledAt(sh, h.cancel)
    case Loop(AwaitOld(try)) => CancelledAt(sh, try.prior.cancel)
    case Loop(StartFresh(try)) => DisposedAt(sh, try.prior.cancel)
    case Loop(RecordFailure(try)) => DisposedAt(sh, try.prior.cancel)
    case Loop(AnnounceFailure(try)) => DisposedAt(sh, try.prior.cancel)
    case Loop(SleepBackoff(try)) => DisposedAt(sh, try.prior.cancel)
    case Loop(InstallFresh(_, _)) => DisposedAt(sh, sh.sess.cancel)
    case Loop(KillFresh(p)) => CancelledAt(sh, Some(p))
    case Loop(ReapFresh(p)) => DisposedAt(sh, Some(p))
    case _ => true
  }

  /** The loop has a fresh subprocess in its hands that it has neither installed nor disposed of. */
  predicate HoldsFresh(t: Thread, p: nat) {
    match t
    case Loop(InstallFresh(q, _)) => q == p
    case Loop(CancelFresh(q)) => q == p
    case Loop(KillFresh(q)) => q == p
    case _ => false
  }

  predicate Held(ts: seq<Thread>, p: nat) {
    exists i :: 0 <= i < |ts| && HoldsFresh(ts[i], p)
  }

  /** Whatever is no longer installed, and not in a loop's hands, was disposed of. */
  ghost predicate OthersDisposed(s: Sys) {
    forall p :: 0 <= p < |s.sh.procs| && s.sh.sess.cancel != Some(p) && !Held(s.threads, p) ==> Disposed(s.sh.procs[p])
  }

  /** Nothing is reaped before it has exited. */
  predicate ReapedHaveExited(sh: Shared) {
    forall p :: 0 <= p < |sh.procs| && sh.procs[p].waits >= 1 ==> sh.procs[p].exited
  }

  ghost predicate DisposalOk(s: Sys) {
    && ClosedAreReaped(s.sh) && ReapedHaveExited(s.sh)
    && (forall i :: 0 <= i < |s.threads| ==> Progress(s.sh, s.threads[i]))
    && OthersDisposed(s)
  }

  // ---------------------------------------------------------------- one goroutine's step

  lemma LoopProgress(c: Policy, sh: Shared, pc: LoopPc, choice: bool)
    requires ClosedAreReaped(sh) && HandlesOk(sh) && LoopOk(c, sh, pc) && Progress(sh, Loop(pc))
    requires Ready(sh, Loop(pc), choice)
    ensures var o := AdvanceLoop(c, sh, pc, choice); Progress(o.sh, o.next)
  {
    hide HeaderSection, Confined, OptsFromSession, InstalledLive;
  }

  lemma LoopSpawns(c: Policy, sh: Shared, pc: LoopPc, choice: bool)
    ensures var o := AdvanceLoop(c, sh, pc, choice); o.spawn.Some? ==> Progress(o.sh, o.spawn.value)
  {
    hide HeaderSection, InstallSection;
  }

  lemma StopperProgress(c: Policy, sh: Shared, pc: StopPc, choice: bool)
    requires HandlesOk(sh) && ThreadOk(c, sh, Stopper(pc))
    ensures var o := AdvanceStopper(sh, pc, choice); Progress(o.sh, o.next) && o.spawn.None?
  {
    hide Confined;
  }

  lemma ThreadProgress(c: Policy, sh: Shared, t: Thread, choice: bool)
    requires ClosedAreReaped(sh) && HandlesOk(sh) && ThreadOk(c, sh, t) && Progress(sh, t) && Ready(sh, t, choice)
    ensures var o := AdvanceThread(c, sh, t, choice);
            Progress(o.sh, o.next) && (o.spawn.Some? ==> Progress(o.sh, o.spawn.value))
  {
    hide AdvanceLoop, AdvanceStopper, HandlesOk;
    match t
    case Loop(pc) => LoopProgress(c, sh, pc, choice); LoopSpawns(c, sh, pc, choice);
    case Stopper(pc) => StopperProgress(c, sh, pc, choice);
    case _ =>
  }

  /** Progress is never lost by what other goroutines do. */
  lemma ProgressStays(sh: Shared, sh': Shared, t: Thread)
    requires Grows(sh, sh') && Progress(sh, t) && (t.Loop? ==> sh'.sess.cancel == sh.sess.cancel)
    ensures Progress(sh', t)
  {
  }

  lemma LoopCloses(c: Policy, sh: Shared, pc: LoopPc, choice: bool)
    requires ClosedAreReaped(sh)
    ensures ClosedAreReaped(AdvanceLoop(c, sh, pc, choice).sh)
  {
    hide HeaderSection, InstallSection;
  }

  lemma MonitorCloses(c: Policy, sh: Shared, pc: MonitorPc, p: nat, k: nat, choice: bool)
    requires ClosedAreReaped(sh) && ThreadOk(c, sh, Monitor(pc, p, k))
    ensures ClosedAreReaped(AdvanceMonitor(sh, pc, p, k, choice).sh)
  {
    hide MonitorSection, TriggerSection;
  }

  lemma OtherCloses(c: Policy, sh: Shared, t: Thread, choice: bool)
    requires ClosedAreReaped(sh) && !t.Loop? && !t.Monitor?
    ensures ClosedAreReaped(AdvanceThread(c, sh, t, choice).sh)
  {
    hide ProbeSection, TriggerSection, ProbeEvents;
  }

  lemma ThreadCloses(c: Policy, sh: Shared, t: Thread, choice: bool)
    requires ClosedAreReaped(sh) && ThreadOk(c, sh, t)
    ensures ClosedAreReaped(AdvanceThread(c, sh, t, choice).sh)
  {
    hide AdvanceLoop, AdvanceMonitor, ClosedAreReaped;
    match t
    case Loop(pc) => LoopCloses(c, sh, pc, choice);
    case Monitor(pc, p, k) => MonitorCloses(c, sh, pc, p, k, choice);
    case _ => OtherCloses(c, sh, t, choice);
  }

  lemma LoopReaps(c: Policy, sh: Shared, pc: LoopPc, choice: bool)
    requires ReapedHaveExited(sh) && Ready(sh, Loop(pc), choice)
    ensures ReapedHaveExited(AdvanceLoop(c, sh, pc, choice).sh)
  {
    hide HeaderSection, InstallSection, OptsFromSession;
  }

  lemma ThreadReaps(c: Policy, sh: Shared, t: Thread, choice: bool)
    requires ReapedHaveExited(sh) && Ready(sh, t, choice)
    ensures ReapedHaveExited(AdvanceThread(c, sh, t, choice).sh)
  {
    hide AdvanceLoop, ProbeSection, MonitorSection, TriggerSection, ProbeEvents;
    match t
    case Loop(pc) => LoopReaps(c, sh, pc, choice);
    case _ =>
  }

  /** A subprocess is left without being disposed of only if it was so before, and not in this goroutine's hands. */
  predicate LeftPassedOn(sh: Shared, t: Thread, o: Out, p: nat) {
    p < |o.sh.procs| && o.sh.sess.cancel != Some(p) && !Disposed(o.sh.procs[p]) ==>
      || HoldsFresh(o.next, p)
      || (p < |sh.procs| && sh.sess.cancel != Some(p) && !Disposed(sh.procs[p]) && !HoldsFresh(t, p))
  }

  /** A loop in the middle of starting or installing. */
  lemma StartLeft(c: Policy, sh: Shared, pc: LoopPc, choice: bool, p: nat)
    requires Progress(sh, Loop(pc)) && (pc.StartFresh? || pc.InstallFresh?)
    ensures LeftPassedOn(sh, Loop(pc), AdvanceLoop(c, sh, pc, choice), p)
  {
    hide OptsFromSession;
  }

  lemma ElseLeft(c: Policy, sh: Shared, pc: LoopPc, choice: bool, p: nat)
    requires Progress(sh, Loop(pc)) && !pc.StartFresh? && !pc.InstallFresh?
    ensures LeftPassedOn(sh, Loop(pc), AdvanceLoop(c, sh, pc, choice), p)
  {
    hide OptsFromSession;
  }

  lemma LoopLeft(c: Policy, sh: Shared, pc: LoopPc, choice: bool, p: nat)
    requires Progress(sh, Loop(pc))
    ensures LeftPassedOn(sh, Loop(pc), AdvanceLoop(c, sh, pc, choice), p)
  {
    hide AdvanceLoop, LeftPassedOn, Progress;
    if pc.StartFresh? || pc.InstallFresh? {
      StartLeft(c, sh, pc, choice, p);
    } else {
      ElseLeft(c, sh, pc, choice, p);
    }
  }

  lemma OtherLeft(c: Policy, sh: Shared, t: Thread, choice: bool, p: nat)
    requires |sh.procs| == |sh.chans| && !t.Loop?
    ensures LeftPassedOn(sh, t, AdvanceThread(c, sh, t, choice), p)
  {
    hide AdvanceThread;
    StepGrows(c, sh, t, choice);
  }

  lemma ThreadLeft(c: Policy, sh: Shared, t: Thread, choice: bool, p: nat)
    requires HandlesOk(sh) && ThreadOk(c, sh, t) && Progress(sh, t)
    ensures LeftPassedOn(sh, t, AdvanceThread(c, sh, t, choice), p)
  {
    hide AdvanceLoop, LeftPassedOn;
    match t
    case Loop(pc) => LoopLeft(c, sh, pc, choice, p);
    case _ => OtherLeft(c, sh, t, choice, p);
  }

  // ---------------------------------------------------------------- every step

  lemma AdvanceOthers(c: Policy, s: Sys, i: nat, choice: bool)
    requires Inv(c, s) && DisposalOk(s) && Enabled(s, Advance(i, choice))
    ensures OthersDisposed(Step(c, s, Advance(i, choice)))
  {
    var t, o := s.threads[i], AdvanceThread(c, s.sh, s.threads[i], choice);
    var s' := Step(c, s, Advance(i, choice));
    assert ThreadOk(c, s.sh, t) && Progress(s.sh, t);
    hide AdvanceThread, ThreadOk, Progress, Disposed, HoldsFresh;
    forall p: nat | p < |s'.sh.procs| && s'.sh.sess.cancel != Some(p) && !Held(s'.threads, p)
      ensures Disposed(s'.sh.procs[p])
    {
      ThreadLeft(c, s.sh, t, choice, p);
      assert s'.threads[i] == o.next;
      forall j | 0 <= j < |s.threads| && j != i ensures !HoldsFresh(s.threads[j], p) {
        assert s'.threads[j] == s.threads[j];
      }
    }
  }

  lemma AdvanceProgress(c: Policy, s: Sys, i: nat, choice: bool)
    requires Inv(c, s) && DisposalOk(s) && Enabled(s, Advance(i, choice))
    ensures var s' := Step(c, s, Advance(i, choice)); forall j :: 0 <= j < |s'.threads| ==> Progress(s'.sh, s'.threads[j])
  {
    var t := s.threads[i];
    var s' := Step(c, s, Advance(i, choice));
    assert ThreadOk(c, s.sh, t) && Progress(s.sh, t);
    ThreadProgress(c, s.sh, t, choice);
    StepGrows(c, s.sh, t, choice);
    hide AdvanceThread, ThreadOk, Progress;
    forall j | 0 <= j < |s'.threads| ensures Progress(s'.sh, s'.threads[j]) {
      if j < |s.threads| && j != i {
        OneLoop(s, i, j);
        ProgressStays(s.sh, s'.sh, s.threads[j]);
      }
    }
  }

  lemma AdvanceCloses(c: Policy, s: Sys, i: nat, choice: bool)
    requires Inv(c, s) && DisposalOk(s) && Enabled(s, Advance(i, choice))
    ensures var sh' := Step(c, s, Advance(i, choice)).sh; ClosedAreReaped(sh') && ReapedHaveExited(sh')
  {
    assert ThreadOk(c, s.sh, s.threads[i]);
    hide AdvanceThread, ThreadOk, ClosedAreReaped, ReapedHaveExited, Ready;
    ThreadCloses(c, s.sh, s.threads[i], choice);
    ThreadReaps(c, s.sh, s.threads[i], choice);
  }

  /** Calls and exits dispose of nothing. */
  lemma OutsideDisposal(c: Policy, s: Sys, a: Action)
    requires DisposalOk(s) && Enabled(s, a) && !a.Advance?
    ensures DisposalOk(Step(c, s, a))
  {
    var s' := Step(c, s, a);
    assert |s'.threads| >= |s.threads|;
    forall i | 0 <= i < |s'.threads| ensures Progress(s'.sh, s'.threads[i]) {
      if i < |s.threads| {
        assert Progress(s.sh, s.threads[i]);
      }
    }
    forall p: nat | p < |s'.sh.procs| && s'.sh.sess.cancel != Some(p) && !Held(s'.threads, p)
      ensures Disposed(s'.sh.procs[p])
    {
      forall j | 0 <= j < |s.threads| ensures !HoldsFresh(s.threads[j], p) {
        assert s'.threads[j] == s.threads[j];
      }
    }
  }

  lemma StepKeepsDisposal(c: Policy, s: Sys, a: Action)
    requires Inv(c, s) && DisposalOk(s) && Enabled(s, a)
    ensures DisposalOk(Step(c, s, a))
  {
    hide Inv, Step, Enabled, ClosedAreReaped, ReapedHaveExited, OthersDisposed, Progress;
    if a.Advance? {
      AdvanceOthers(c, s, a.i, a.choice);
      AdvanceProgress(c, s, a.i, a.choice);
      AdvanceCloses(c, s, a.i, a.choice);
    } else {
      OutsideDisposal(c, s, a);
    }
  }

  lemma {:induction false} RunKeepsDisposal(c: Policy, s: Sys, acts: seq<Action>)
    requires Inv(c, s) && DisposalOk(s) && Runs(c, s, acts)
    ensures DisposalOk(After(c, s, acts))
    decreases |acts|
  {
    hide Inv, Step, Enabled, DisposalOk;
    if acts != [] {
      StepKeepsDisposal(c, s, acts[0]);
      StepKeepsInv(c, s, acts[0]);
      RunKeepsDisposal(c, Step(c, s, acts[0]), acts[1..]);
    }
  }

  lemma InitDisposal(s: Sys)
    requires Init(s)
    ensures DisposalOk(s)
  {
  }

  lemma ReachableDisposal(c: Policy, s: Sys, acts: seq<Action>)
    requires Init(s) && Runs(c, s, acts)
    ensures Inv(c, After(c, s, acts)) && DisposalOk(After(c, s, acts))
  {
    hide Inv, Step, Enabled, DisposalOk, Init;
    InitInv(c, s);
    InitDisposal(s);
    RunKeepsInv(c, s, acts);
    RunKeepsDisposal(c, s, acts);
  }

  // ---------------------------------------------------------------- the theorems

  lemma StopperEnds(c: Policy, s: Sys, i: nat, timeout: bool, h: Handles, p: nat)
    requires Inv(c, s) && DisposalOk(s) && Enabled(s, Advance(i, timeout))
    requires s.threads[i] == Stopper(AwaitStopped(h)) && h.cmd == Some(p)
    ensures var t := Step(c, s, Advance(i, timeout));
            && t.threads[i].Finished? && p < |t.sh.procs| && Disposed(t.sh.procs[p])
            && (!timeout ==> t.sh == s.sh)
  {
    assert ThreadOk(c, s.sh, s.threads[i]) && Progress(s.sh, s.threads[i]);
  }

  /**
   When a stop call returns, the subprocess it found installed has been cancelled, and is killed if
   five seconds went by or else already reaped; a call that saw the exit kills nothing.
   */
  lemma StopDisposes(c: Policy, s: Sys, acts: seq<Action>, i: nat, timeout: bool, h: Handles, p: nat)
    requires Init(s) && Runs(c, s, acts) && Enabled(After(c, s, acts), Advance(i, timeout))
    requires After(c, s, acts).threads[i] == Stopper(AwaitStopped(h)) && h.cmd == Some(p)
    ensures var t := After(c, s, acts);
            var t' := Step(c, t, Advance(i, timeout));
            && t'.threads[i].Finished? && p < |t'.sh.procs| && Disposed(t'.sh.procs[p])
            && (!timeout ==> t'.sh == t.sh)
  {
    hide Inv, DisposalOk, Step;
    ReachableDisposal(c, s, acts);
    StopperEnds(c, After(c, s, acts), i, timeout, h, p);
  }

  lemma LoopStopsWaitingHere(c: Policy, s: Sys, i: nat, timeout: bool, try: Try)
    requires Inv(c, s) && DisposalOk(s) && Enabled(s, Advance(i, timeout)) && s.threads[i] == Loop(AwaitOld(try))
    ensures var t := Step(c, s, Advance(i, timeout));
            && t.threads[i] == Loop(StartFresh(try)) && s.sh.sess.cancel.Some? && DisposedAt(t.sh, s.sh.sess.cancel)
            && (!timeout ==> t.sh == s.sh)
  {
    assert ThreadOk(c, s.sh, s.threads[i]) && Progress(s.sh, s.threads[i]);
  }

  /** A loop goes on when the old subprocess is reaped, and kills it then and only then if five seconds went by before. */
  lemma LoopDisposes(c: Policy, s: Sys, acts: seq<Action>, i: nat, timeout: bool, try: Try)
    requires Init(s) && Runs(c, s, acts) && Enabled(After(c, s, acts), Advance(i, timeout))
    requires After(c, s, acts).threads[i] == Loop(AwaitOld(try))
    ensures var t := After(c, s, acts);
            var t' := Step(c, t, Advance(i, timeout));
            && t'.threads[i] == Loop(StartFresh(try)) && t.sh.sess.cancel.Some? && DisposedAt(t'.sh, t.sh.sess.cancel)
            && (!timeout ==> t'.sh == t.sh)
  {
    hide Inv, DisposalOk, Step, DisposedAt;
    ReachableDisposal(c, s, acts);
    LoopStopsWaitingHere(c, After(c, s, acts), i, timeout, try);
  }

  /** A loop that has cancelled the old subprocess and stopped waiting for it. */
  predicate PastOld(t: Thread) {
    t.Loop? && (t.lpc.StartFresh? || t.lpc.RecordFailure? || t.lpc.AnnounceFailure? || t.lpc.SleepBackoff? || t.lpc.InstallFresh?)
  }

  /** No replacement is started, or installed, while the old subprocess is neither killed nor reaped. */
  lemma OldDisposedFirst(c: Policy, s: Sys, acts: seq<Action>, i: nat)
    requires Init(s) && Runs(c, s, acts)
    requires var t := After(c, s, acts); i < |t.threads| && PastOld(t.threads[i])
    ensures var sh := After(c, s, acts).sh; sh.sess.cancel.Some? && DisposedAt(sh, sh.sess.cancel)
  {
    ReachableDisposal(c, s, acts);
    var t := After(c, s, acts);
    assert ThreadOk(c, t.sh, t.threads[i]) && Progress(t.sh, t.threads[i]);
  }

  /** In every reachable state each subprocess but the installed one, and one in a loop's hands, was disposed of. */
  lemma ReplacedAreDisposed(c: Policy, s: Sys, acts: seq<Action>, p: nat)
    requires Init(s) && Runs(c, s, acts)
    requires var t := After(c, s, acts);
             p < |t.sh.procs| && t.sh.sess.cancel != Some(p) && forall i :: 0 <= i < |t.threads| ==> !HoldsFresh(t.threads[i], p)
    ensures Disposed(After(c, s, acts).sh.procs[p])
  {
    hide Inv, Progress, Disposed, HoldsFresh;
    ReachableDisposal(c, s, acts);
  }

  /** What was reaped had exited, and a closed channel says that its subprocess was reaped. */
  lemma ReapedAndClosed(c: Policy, s: Sys, acts: seq<Action>, p: nat)
    requires Init(s) && Runs(c, s, acts) && p < |After(c, s, acts).sh.procs|
    ensures var sh := After(c, s, acts).sh;
            && (sh.procs[p].waits >= 1 ==> sh.procs[p].exited)
            && |sh.chans| == |sh.procs| && (sh.chans[p] > 0 ==> sh.procs[p].waits >= 1)
  {
    hide Inv, Progress;
    ReachableDisposal(c, s, acts);
  }
}
