/** Nobody waits for a channel that nobody will close. */
module Channels {
  import opened SessionTypes
  import opened Sections
  import opened Lifecycle
  import opened Tallies
  import opened Invariant
  import opened Preservation

  /** The channel's subprocess is or was installed: the first one, or one that a loop recorded. */
  predicate Owned(sh: Shared, k: nat) {
    k == 0 || Installed(k) in sh.log
  }

  predicate OwnedAt(sh: Shared, h: Option<nat>) {
    h.Some? ==> Owned(sh, h.value)
  }

  predicate Installing(t: Thread, k: nat) {
    t.Loop? && t.lpc.InstallFresh? && t.lpc.k == k
  }

  predicate SomeInstalling(ts: seq<Thread>, k: nat) {
    exists i :: 0 <= i < |ts| && Installing(ts[i], k)
  }

  /** Somebody is bound to close the channel, or it is closed. */
  predicate Manned(s: Sys, k: nat) {
    k < |s.sh.chans| && Tally(Closer(k), s.threads) + s.sh.chans[k] == 1
  }

  /** The handles that a stop call took were those of an installed subprocess. */
  predicate TookOwned(sh: Shared, t: Thread) {
    match t
    case Stopper(CancelStopped(h)) => OwnedAt(sh, h.waitDone)
    case Stopper(AwaitStopped(h)) => OwnedAt(sh, h.waitDone)
    case _ => true
  }

  /** The channel counts: it was installed, or a loop is about to install it. */
  predicate Counted(s: Sys, k: nat) {
    Owned(s.sh, k) || SomeInstalling(s.threads, k)
  }

  /** What a loop is about to install was never installed before. */
  predicate FreshInHand(sh: Shared, t: Thread) {
    t.Loop? && t.lpc.InstallFresh? ==> t.lpc.k < |sh.chans| && !Owned(sh, t.lpc.k)
  }

  ghost predicate OwnershipOk(s: Sys) {
    && OwnedAt(s.sh, s.sh.sess.waitDone)
    && (forall k: nat :: Installed(k) in s.sh.log ==> k < |s.sh.chans|)
    && (forall i :: 0 <= i < |s.threads| ==> TookOwned(s.sh, s.threads[i]) && FreshInHand(s.sh, s.threads[i]))
  }

  ghost predicate ChannelsManned(s: Sys) {
    OwnershipOk(s) && forall k :: 0 <= k < |s.sh.chans| && Counted(s, k) ==> Manned(s, k)
  }

  // ---------------------------------------------------------------- one goroutine's step: closers

  predicate ClosersKept(sh: Shared, t: Thread, o: Out, k: nat) {
    Gain(Closer(k), o) + ClosesOf(o.sh, k) == One(Plays(Closer(k), t)) + ClosesOf(sh, k) + One(|sh.chans| <= k < |o.sh.chans|)
  }

  /** A loop refuses the subprocess it has just started: nobody will close its channel, and nobody waits for it. */
  predicate Refuses(t: Thread, o: Out, k: nat) {
    Installing(t, k) && o.next.Loop? && o.next.lpc.CancelFresh?
  }

  lemma LoopKeepsClosers(c: Policy, sh: Shared, pc: LoopPc, choice: bool, k: nat)
    requires |sh.procs| == |sh.chans| && LoopOk(c, sh, pc)
    ensures var o := AdvanceLoop(c, sh, pc, choice); Refuses(Loop(pc), o, k) || ClosersKept(sh, Loop(pc), o, k)
  {
    hide HeaderSection, TryOk, InstalledLive;
  }

  lemma MonitorKeepsClosers(c: Policy, sh: Shared, pc: MonitorPc, p: nat, q: nat, choice: bool, k: nat)
    requires |sh.procs| == |sh.chans| && ThreadOk(c, sh, Monitor(pc, p, q))
    ensures ClosersKept(sh, Monitor(pc, p, q), AdvanceMonitor(sh, pc, p, q, choice), k)
  {
    hide MonitorSection, TriggerSection;
  }

  lemma OtherKeepsClosers(c: Policy, sh: Shared, t: Thread, choice: bool, k: nat)
    requires !t.Loop? && !t.Monitor?
    ensures ClosersKept(sh, t, AdvanceThread(c, sh, t, choice), k)
  {
    hide ProbeSection, TriggerSection, ProbeEvents;
  }

  lemma ThreadKeepsClosers(c: Policy, sh: Shared, t: Thread, choice: bool, k: nat)
    requires HandlesOk(sh) && ThreadOk(c, sh, t)
    ensures var o := AdvanceThread(c, sh, t, choice); Refuses(t, o, k) || ClosersKept(sh, t, o, k)
  {
    hide AdvanceLoop, AdvanceMonitor, ClosersKept, LoopOk;
    match t
    case Loop(pc) => LoopKeepsClosers(c, sh, pc, choice, k);
    case Monitor(pc, p, q) => MonitorKeepsClosers(c, sh, pc, p, q, choice, k);
    case _ => OtherKeepsClosers(c, sh, t, choice, k);
  }

  // ---------------------------------------------------------------- one goroutine's step: what is installed

  /** The step installs what the goroutine had in hand, or nothing. */
  ghost predicate InstallsOnly(sh: Shared, t: Thread, sh': Shared) {
    && sh.log <= sh'.log && |sh.chans| <= |sh'.chans|
    && forall k: nat :: Installed(k) in sh'.log ==> Installed(k) in sh.log || (Installing(t, k) && sh'.sess.waitDone == Some(k))
  }

  lemma LoopInstallsOnly(c: Policy, sh: Shared, pc: LoopPc, choice: bool)
    requires LoopOk(c, sh, pc)
    ensures InstallsOnly(sh, Loop(pc), AdvanceLoop(c, sh, pc, choice).sh)
  {
    hide TryOk, InstalledLive;
  }

  lemma OtherInstallsNothing(c: Policy, sh: Shared, t: Thread, choice: bool)
    requires !t.Loop?
    ensures InstallsOnly(sh, t, AdvanceThread(c, sh, t, choice).sh)
  {
    assert sh.log + [] == sh.log;
  }

  /** The handles in the session and in the goroutine's hands stay those of installed subprocesses. */
  predicate TakesOwned(sh: Shared, t: Thread, o: Out) {
    && OwnedAt(o.sh, o.sh.sess.waitDone)
    && TookOwned(o.sh, o.next) && (o.spawn.Some? ==> TookOwned(o.sh, o.spawn.value))
    && FreshInHand(o.sh, o.next) && (o.spawn.Some? ==> FreshInHand(o.sh, o.spawn.value))
  }

  lemma LoopTakesOwned(c: Policy, sh: Shared, pc: LoopPc, choice: bool)
    requires pc.InstallFresh? ==> pc.p == pc.k
    requires OwnedAt(sh, sh.sess.waitDone) && |sh.chans| > 0
    requires forall k: nat :: Installed(k) in sh.log ==> k < |sh.chans|
    ensures TakesOwned(sh, Loop(pc), AdvanceLoop(c, sh, pc, choice))
  {
    if pc.InstallFresh? {
      hide HeaderSection, OptsFromSession;
    } else {
      hide InstallSection, OptsFromSession;
    }
  }

  lemma InHandMatches(c: Policy, sh: Shared, pc: LoopPc)
    requires LoopOk(c, sh, pc)
    ensures pc.InstallFresh? ==> pc.p == pc.k
  {
  }

  lemma OtherTakesOwned(c: Policy, sh: Shared, t: Thread, choice: bool)
    requires !t.Loop? && |sh.chans| == |sh.procs| && OwnedAt(sh, sh.sess.waitDone) && TookOwned(sh, t)
    ensures TakesOwned(sh, t, AdvanceThread(c, sh, t, choice))
  {
    var o := AdvanceThread(c, sh, t, choice);
    OtherInstallsNothing(c, sh, t, choice);
    OtherTakes(c, sh, t, choice);
    hide AdvanceThread, InstallsOnly, Owned;
    assert sh.log <= o.sh.log by { ExtendsLog(sh, t, o.sh); }
    if sh.sess.waitDone.Some? { OwnedStays(sh, o.sh, sh.sess.waitDone.value); }
    TookStays(sh, o.sh, o.next);
  }

  lemma ExtendsLog(sh: Shared, t: Thread, sh': Shared)
    requires InstallsOnly(sh, t, sh')
    ensures sh.log <= sh'.log
  {
  }

  lemma OtherTakes(c: Policy, sh: Shared, t: Thread, choice: bool)
    requires !t.Loop? && |sh.chans| == |sh.procs| && OwnedAt(sh, sh.sess.waitDone) && TookOwned(sh, t)
    ensures var o := AdvanceThread(c, sh, t, choice);
            && o.sh.sess.waitDone == sh.sess.waitDone && TookOwned(sh, o.next) && !o.next.Loop?
            && (o.spawn.Some? ==> o.spawn.value == Loop(CheckHeader))
  {
    StepGrows(c, sh, t, choice);
    if t.Stopper? {
      StopperTakes(sh, t.spc, choice);
    } else {
      hide Owned;
      NotStopper(c, sh, t, choice);
    }
    hide AdvanceThread, Owned;
  }

  lemma StopperTakes(sh: Shared, pc: StopPc, choice: bool)
    requires OwnedAt(sh, sh.sess.waitDone) && TookOwned(sh, Stopper(pc))
    ensures var o := AdvanceStopper(sh, pc, choice); TookOwned(sh, o.next) && !o.next.Loop? && o.spawn.None?
  {
    hide Owned;
  }

  lemma NotStopper(c: Policy, sh: Shared, t: Thread, choice: bool)
    requires !t.Loop? && !t.Stopper?
    ensures var o := AdvanceThread(c, sh, t, choice);
            !o.next.Stopper? && !o.next.Loop? && (o.spawn.Some? ==> o.spawn.value == Loop(CheckHeader))
  {
    hide ProbeSection, MonitorSection, TriggerSection, ProbeEvents;
  }

  lemma OwnedStays(sh: Shared, sh': Shared, k: nat)
    requires sh.log <= sh'.log && Owned(sh, k)
    ensures Owned(sh', k)
  {
    if k != 0 {
      var j :| 0 <= j < |sh.log| && sh.log[j] == Installed(k);
      assert sh'.log[j] == Installed(k);
    }
  }

  lemma TookStays(sh: Shared, sh': Shared, t: Thread)
    requires sh.log <= sh'.log && TookOwned(sh, t)
    ensures TookOwned(sh', t)
  {
    hide Owned;
    match t
    case Stopper(CancelStopped(h)) => if h.waitDone.Some? { OwnedStays(sh, sh', h.waitDone.value); }
    case Stopper(AwaitStopped(h)) => if h.waitDone.Some? { OwnedStays(sh, sh', h.waitDone.value); }
    case _ =>
  }

  // ---------------------------------------------------------------- every step

  lemma ThreadInstalls(c: Policy, s: Sys, i: nat, choice: bool)
    requires Inv(c, s) && OwnershipOk(s) && Enabled(s, Advance(i, choice))
    ensures var o := AdvanceThread(c, s.sh, s.threads[i], choice);
            InstallsOnly(s.sh, s.threads[i], o.sh) && TakesOwned(s.sh, s.threads[i], o)
  {
    var t := s.threads[i];
    assert ThreadOk(c, s.sh, t) && TookOwned(s.sh, t);
    hide TookOwned, TakesOwned, InstallsOnly, LoopOk, AdvanceLoop;
    if t.Loop? {
      LoopInstallsOnly(c, s.sh, t.lpc, choice);
      InHandMatches(c, s.sh, t.lpc);
      LoopTakesOwned(c, s.sh, t.lpc, choice);
    } else {
      OtherInstallsNothing(c, s.sh, t, choice);
      OtherTakesOwned(c, s.sh, t, choice);
    }
  }

  lemma OthersFresh(c: Policy, s: Sys, i: nat, j: nat, sh': Shared)
    requires Inv(c, s) && i < |s.threads| && j < |s.threads| && i != j
    requires FreshInHand(s.sh, s.threads[j]) && InstallsOnly(s.sh, s.threads[i], sh')
    ensures FreshInHand(sh', s.threads[j])
  {
    if s.threads[j].Loop? {
      OneLoop(s, i, j);
    }
  }

  lemma AdvanceKeepsOwnership(c: Policy, s: Sys, i: nat, choice: bool)
    requires Inv(c, s) && OwnershipOk(s) && Enabled(s, Advance(i, choice))
    ensures OwnershipOk(Step(c, s, Advance(i, choice)))
  {
    ThreadInstalls(c, s, i, choice);
    var s' := Step(c, s, Advance(i, choice));
    assert FreshInHand(s.sh, s.threads[i]);
    hide Inv, AdvanceThread, TookOwned;
    forall j | 0 <= j < |s'.threads| ensures TookOwned(s'.sh, s'.threads[j]) && FreshInHand(s'.sh, s'.threads[j]) {
      if j < |s.threads| && j != i {
        TookStays(s.sh, s'.sh, s.threads[j]);
        OthersFresh(c, s, i, j, s'.sh);
      }
    }
  }

  lemma CountedBefore(c: Policy, s: Sys, i: nat, choice: bool, k: nat)
    requires Inv(c, s) && OwnershipOk(s) && Enabled(s, Advance(i, choice))
    requires var s' := Step(c, s, Advance(i, choice)); k < |s.sh.chans| && Counted(s', k)
    ensures Counted(s, k) && !Refuses(s.threads[i], AdvanceThread(c, s.sh, s.threads[i], choice), k)
  {
    var t, o, s' := s.threads[i], AdvanceThread(c, s.sh, s.threads[i], choice), Step(c, s, Advance(i, choice));
    ThreadInstalls(c, s, i, choice);
    assert FreshInHand(s.sh, t);
    NewInHand(c, s.sh, t, choice, k);
    if t.Loop? { OnlyThisLoop(c, s, i); }
    hide Inv, AdvanceThread, TakesOwned;
    if Owned(s'.sh, k) {
      if !Owned(s.sh, k) {
        assert Installing(s.threads[i], k);
      }
    } else {
      var j :| 0 <= j < |s'.threads| && Installing(s'.threads[j], k);
      assert j < |s.threads| && j != i && s.threads[j] == s'.threads[j];
    }
  }

  lemma OnlyThisLoop(c: Policy, s: Sys, i: nat)
    requires Inv(c, s) && i < |s.threads| && s.threads[i].Loop?
    ensures forall j :: 0 <= j < |s.threads| && j != i ==> !s.threads[j].Loop?
  {
    forall j | 0 <= j < |s.threads| && j != i ensures !s.threads[j].Loop? {
      OneLoop(s, i, j);
    }
  }

  /** What a step newly puts into a loop's hands has a new channel. */
  lemma NewInHand(c: Policy, sh: Shared, t: Thread, choice: bool, k: nat)
    requires k < |sh.chans|
    ensures var o := AdvanceThread(c, sh, t, choice);
            && !Installing(o.next, k) && (o.spawn.Some? ==> !Installing(o.spawn.value, k))
            && (Refuses(t, o, k) ==> o.sh.log == sh.log)
  {
    hide HeaderSection, ProbeSection, MonitorSection, TriggerSection;
  }

  lemma NobodyNew(c: Policy, s: Sys, k: nat)
    requires Inv(c, s) && k >= |s.sh.procs|
    ensures Tally(Closer(k), s.threads) == 0
  {
    NoStrangers(c, s, k);
  }

  /** A loop's start gives the new channel its closer; nothing else makes a channel. */
  lemma NewIsManned(c: Policy, s: Sys, i: nat, choice: bool, k: nat)
    requires Inv(c, s) && Enabled(s, Advance(i, choice))
    requires |s.sh.chans| <= k < |Step(c, s, Advance(i, choice)).sh.chans|
    ensures Manned(Step(c, s, Advance(i, choice)), k)
  {
    var t, o := s.threads[i], AdvanceThread(c, s.sh, s.threads[i], choice);
    assert ThreadOk(c, s.sh, t);
    StepGrows(c, s.sh, t, choice);
    NobodyNew(c, s, k);
    hide Inv, ThreadOk, AdvanceLoop;
    TallyAfter(Closer(k), s.threads, i, o.next, o.spawn);
    StartsManned(c, s.sh, t.lpc, choice, k);
  }

  lemma StartsManned(c: Policy, sh: Shared, pc: LoopPc, choice: bool, k: nat)
    requires |sh.chans| == |sh.procs| && |sh.chans| <= k < |AdvanceLoop(c, sh, pc, choice).sh.chans|
    ensures var o := AdvanceLoop(c, sh, pc, choice);
            Gain(Closer(k), o) == 1 && !Plays(Closer(k), Loop(pc)) && o.sh.chans[k] == 0
  {
    hide HeaderSection, InstallSection;
  }

  lemma OldStaysManned(c: Policy, s: Sys, i: nat, choice: bool, k: nat)
    requires Inv(c, s) && ChannelsManned(s) && Enabled(s, Advance(i, choice))
    requires k < |s.sh.chans| && Counted(Step(c, s, Advance(i, choice)), k)
    ensures Manned(Step(c, s, Advance(i, choice)), k)
  {
    var t, o := s.threads[i], AdvanceThread(c, s.sh, s.threads[i], choice);
    assert ThreadOk(c, s.sh, t);
    StepGrows(c, s.sh, t, choice);
    CountedBefore(c, s, i, choice, k);
    assert Manned(s, k);
    ThreadKeepsClosers(c, s.sh, t, choice, k);
    TallyAfter(Closer(k), s.threads, i, o.next, o.spawn);
    hide Inv, AdvanceThread, ThreadOk, Counted, Tally;
  }

  lemma StepKeepsManned(c: Policy, s: Sys, a: Action)
    requires Inv(c, s) && ChannelsManned(s) && Enabled(s, a)
    ensures ChannelsManned(Step(c, s, a))
  {
    if a.Advance? {
      hide Inv, Step, Enabled, OwnershipOk, Counted, Manned;
      AdvanceKeepsOwnership(c, s, a.i, a.choice);
      var s' := Step(c, s, a);
      forall k: nat | k < |s'.sh.chans| && Counted(s', k) ensures Manned(s', k) {
        if k < |s.sh.chans| {
          OldStaysManned(c, s, a.i, a.choice, k);
        } else {
          NewIsManned(c, s, a.i, a.choice, k);
        }
      }
    } else {
      OutsideKeepsManned(c, s, a);
    }
  }

  lemma OutsideKeepsManned(c: Policy, s: Sys, a: Action)
    requires ChannelsManned(s) && Enabled(s, a) && !a.Advance?
    ensures ChannelsManned(Step(c, s, a))
  {
    match a
    case ProcessExits(p) => ExitKeepsManned(c, s, p);
    case CallStop => CallKeepsManned(s, Stopper(EnterStop));
    case CallReconnect => CallKeepsManned(s, Reconnector(LookUp));
    case CallRemove => CallKeepsManned(s, Remover);
  }

  lemma ExitKeepsManned(c: Policy, s: Sys, p: nat)
    requires ChannelsManned(s) && Enabled(s, ProcessExits(p))
    ensures ChannelsManned(Step(c, s, ProcessExits(p)))
  {
    var s' := Step(c, s, ProcessExits(p));
    assert s'.threads == s.threads && s'.sh.chans == s.sh.chans && s'.sh.log == s.sh.log;
    forall k: nat | k < |s'.sh.chans| && Counted(s', k) ensures Manned(s', k) {
      assert Counted(s, k);
      assert Manned(s, k);
    }
  }

  lemma CallKeepsManned(s: Sys, t: Thread)
    requires ChannelsManned(s) && (t == Stopper(EnterStop) || t == Reconnector(LookUp) || t == Remover)
    ensures ChannelsManned(s.(threads := s.threads + [t]))
  {
    hide Tally, Owned;
    var s' := s.(threads := s.threads + [t]);
    forall k: nat | k < |s'.sh.chans| && Counted(s', k) ensures Manned(s', k) {
      assert Counted(s, k) by {
        if !Owned(s'.sh, k) {
          var j :| 0 <= j < |s'.threads| && Installing(s'.threads[j], k);
          assert j < |s.threads| && Installing(s.threads[j], k);
        }
      }
      assert Manned(s, k);
      TallySnoc(Closer(k), s.threads, t);
    }
  }

  lemma {:induction false} RunKeepsManned(c: Policy, s: Sys, acts: seq<Action>)
    requires Inv(c, s) && ChannelsManned(s) && Runs(c, s, acts)
    ensures ChannelsManned(After(c, s, acts))
    decreases |acts|
  {
    hide Inv, Step, Enabled, ChannelsManned;
    if acts != [] {
      StepKeepsManned(c, s, acts[0]);
      StepKeepsInv(c, s, acts[0]);
      RunKeepsManned(c, Step(c, s, acts[0]), acts[1..]);
    }
  }

  lemma StartedManned(opts: SessionOpts)
    ensures ChannelsManned(Started(opts))
  {
    TallySmall(Closer(0), Started(opts).threads);
  }

  lemma AdoptedManned(opts: SessionOpts)
    ensures ChannelsManned(Adopted(opts))
  {
    TallySmall(Closer(0), Adopted(opts).threads);
  }

  lemma ExternalManned(opts: SessionOpts, hasChecker: bool)
    ensures ChannelsManned(External(opts, hasChecker))
  {
  }

  lemma InitManned(s: Sys)
    requires Init(s)
    ensures ChannelsManned(s)
  {
    hide ChannelsManned;
    if opts :| s == Started(opts) {
      StartedManned(opts);
    } else if opts :| s == Adopted(opts) {
      AdoptedManned(opts);
    } else {
      var opts, hasChecker :| s == External(opts, hasChecker);
      ExternalManned(opts, hasChecker);
    }
  }

  lemma ReachableManned(c: Policy, s: Sys, acts: seq<Action>)
    requires Init(s) && Runs(c, s, acts)
    ensures Inv(c, After(c, s, acts)) && ChannelsManned(After(c, s, acts))
  {
    hide Inv, Step, Enabled, ChannelsManned, Init;
    InitInv(c, s);
    InitManned(s);
    RunKeepsInv(c, s, acts);
    RunKeepsManned(c, s, acts);
  }

  // ---------------------------------------------------------------- the theorem

  /** The channel that the goroutine is, or will be, waiting for. */
  function Awaited(t: Thread): Option<nat> {
    match t
    case Stopper(CancelStopped(h)) => h.waitDone
    case Stopper(AwaitStopped(h)) => h.waitDone
    case Loop(AnnounceAttempt(try)) => try.prior.waitDone
    case Loop(CancelOld(try)) => try.prior.waitDone
    case Loop(AwaitOld(try)) => try.prior.waitDone
    case _ => None
  }

  /** The goroutine is going to close channel k. */
  predicate WillClose(t: Thread, k: nat) {
    Plays(Closer(k), t)
  }

  /**
   A stop call or a loop waits only for a channel that is closed, or that exactly one goroutine is
   bound to close: nobody depends on the five-second timeout because a close was forgotten.
   */
  lemma AwaitedIsClosedOrManned(c: Policy, s: Sys, acts: seq<Action>, i: nat, k: nat)
    requires Init(s) && Runs(c, s, acts)
    requires var t := After(c, s, acts); i < |t.threads| && Awaited(t.threads[i]) == Some(k)
    ensures var t := After(c, s, acts);
            && k < |t.sh.chans|
            && (t.sh.chans[k] == 0 <==> exists j :: 0 <= j < |t.threads| && WillClose(t.threads[j], k))
            && (t.sh.chans[k] == 0 || t.sh.chans[k] == 1)
  {
    ReachableManned(c, s, acts);
    var t := After(c, s, acts);
    AwaitedIsManned(c, t, i, k);
    hide Inv, ChannelsManned, Plays, Tally;
    if t.sh.chans[k] == 0 {
      var j := TallyWitness(Closer(k), t.threads);
      assert WillClose(t.threads[j], k);
    } else {
      forall j | 0 <= j < |t.threads| ensures !WillClose(t.threads[j], k) {
        if WillClose(t.threads[j], k) {
          TallyHit(Closer(k), t.threads, j);
        }
      }
    }
  }

  lemma AwaitedIsManned(c: Policy, t: Sys, i: nat, k: nat)
    requires Inv(c, t) && ChannelsManned(t) && i < |t.threads| && Awaited(t.threads[i]) == Some(k)
    ensures Manned(t, k)
  {
    assert ThreadOk(c, t.sh, t.threads[i]) && TookOwned(t.sh, t.threads[i]);
    assert Owned(t.sh, k);
  }
}
