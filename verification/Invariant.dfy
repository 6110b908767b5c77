/**
 The inductive invariant of the lifecycle. What is said of single goroutines is kept apart from
 what is said of how many there are: the first is proved goroutine by goroutine, the second by
 counting what one step adds to a tally and takes from it.
 */
module Invariant {
  import opened SessionTypes
  import opened Sections
  import opened Lifecycle
  import opened Accounting
  import opened Tallies

  // ---------------------------------------------------------------- shared state

  /** The installed subprocess, if any, is neither cancelled nor reaped. */
  predicate InstalledLive(sh: Shared) {
    sh.sess.cancel.Some? && sh.sess.cancel.value < |sh.procs| && sh.procs[sh.sess.cancel.value].Live()
  }

  /** The states a session of each kind is confined to. */
  predicate Confined(sh: Shared) {
    var s := sh.sess;
    if s.reconnectable then
      s.target.typ.TypePortForward? && s.cancel.Some? && !s.state.StateStarting?
    else if s.cancel.Some? then
      && s.target.typ.TypeShell?
      && |sh.procs| == 1
      && (s.state.StateRunning? || s.state.StateStopping? || s.state.StateStopped? || s.state.StateErrored?)
    else
      && |sh.procs| == 0
      && (s.state.StateRunning? || s.state.StateStalled? || s.state.StateStopping? || s.state.StateStopped?)
      && (s.state.StateStalled? ==> s.target.typ.TypePortForward?)
  }

  ghost predicate SharedOk(c: Policy, sh: Shared) {
    HandlesOk(sh) && CountsOk(c, sh)
  }

  /** The three handles belong to one started subprocess, and all subprocesses got the same options. */
  predicate HandlesOk(sh: Shared) {
    && sh.sess.cmd == sh.sess.cancel == sh.sess.waitDone
    && (sh.sess.cancel.Some? ==> sh.sess.cancel.value < |sh.procs|)
    && |sh.chans| == |sh.procs|
    && Confined(sh)
    && (forall p :: 0 <= p < |sh.procs| ==> sh.procs[p].opts == OptsFromSession(sh.sess.target))
  }

  /** The session's counters mean what they should, and the log justifies every decision in it. */
  ghost predicate CountsOk(c: Policy, sh: Shared) {
    && LogOk(c, sh.log)
    && sh.sess.attempts == SinceReset(sh.log) <= c.maxAttempts
    && sh.sess.consecutiveFailures == TrailingFailures(sh.log)
  }

  // ---------------------------------------------------------------- one goroutine

  predicate TryOk(c: Policy, sh: Shared, try: Try) {
    && 1 <= try.n <= c.maxAttempts
    && try.opts == OptsFromSession(sh.sess.target)
    && try.prior == HandlesOf(sh.sess)
  }

  predicate ThreadOk(c: Policy, sh: Shared, t: Thread) {
    match t
    case Monitor(pc, p, k) =>
      && p == k < |sh.procs|
      && (pc.WaitProcess? || sh.procs[p].waits >= 1)
      && (pc.Retrigger? || (pc.AnnounceReport? && pc.retrigger) ==> sh.sess.reconnectable)
    case Prober(pc) =>
      && sh.sess.target.typ.TypePortForward?
      && (pc.TriggerFromProbe? || (pc.AnnounceProbe? && pc.reconnect) ==> sh.sess.reconnectable)
    case Loop(pc) => sh.sess.reconnectable && LoopOk(c, sh, pc)
    case Stopper(CancelStopped(h)) => h.cmd == h.cancel == h.waitDone && (h.cancel.Some? ==> h.cancel.value < |sh.procs|)
    case Stopper(AwaitStopped(h)) => h.cmd == h.cancel == h.waitDone && (h.cancel.Some? ==> h.cancel.value < |sh.procs|)
    case Reconnector(TriggerManual) => sh.sess.reconnectable
    case Poller(_) => |sh.procs| == 0 && !sh.sess.reconnectable && sh.sess.cancel.None?
    case _ => true
  }

  predicate LoopOk(c: Policy, sh: Shared, pc: LoopPc) {
    match pc
    case AnnounceAttempt(try) => TryOk(c, sh, try)
    case CancelOld(try) => TryOk(c, sh, try)
    case AwaitOld(try) => TryOk(c, sh, try) && !InstalledLive(sh)
    case StartFresh(try) => TryOk(c, sh, try) && !InstalledLive(sh)
    case RecordFailure(try) => TryOk(c, sh, try) && !InstalledLive(sh)
    case AnnounceFailure(try) => TryOk(c, sh, try) && !InstalledLive(sh)
    case SleepBackoff(try) => TryOk(c, sh, try) && !InstalledLive(sh)
    case InstallFresh(p, k) => p == k < |sh.procs| && sh.sess.cancel != Some(p) && !InstalledLive(sh)
    case CancelFresh(p) => p < |sh.procs| && sh.sess.cancel != Some(p) && !InstalledLive(sh)
    case KillFresh(p) => p < |sh.procs| && !sh.procs[p].Live()
    case ReapFresh(p) => p < |sh.procs| && !sh.procs[p].Live()
    case AnnounceInstall(p, k) => p == k < |sh.procs| && sh.sess.cancel == Some(p)
    case SpawnMonitor(p, k) => p == k < |sh.procs| && sh.sess.cancel == Some(p)
    case _ => true
  }

  // ---------------------------------------------------------------- how many goroutines

  predicate FlagsExact(s: Sys) {
    && Tally(LoopActive, s.threads) == One(s.sh.sess.reconnectInFlight)
    && Tally(ProbeActive, s.threads) == One(s.sh.sess.probeInFlight)
  }

  predicate WaitersExact(s: Sys) {
    forall p :: 0 <= p < |s.sh.procs| ==> Tally(Waiter(p), s.threads) + s.sh.procs[p].waits == 1
  }

  predicate ClosersBounded(s: Sys) {
    forall k :: 0 <= k < |s.sh.chans| ==> Tally(Closer(k), s.threads) + s.sh.chans[k] <= 1
  }

  predicate LiveAccounted(s: Sys) {
    forall p :: 0 <= p < |s.sh.procs| && s.sh.procs[p].Live() ==>
      s.sh.sess.cancel == Some(p) || Tally(FreshHolder(p), s.threads) >= 1
  }

  predicate StopCovered(s: Sys) {
    s.sh.sess.state.IsStop() && InstalledLive(s.sh) ==> Tally(Cancelling(s.sh.sess.cancel.value), s.threads) >= 1
  }

  predicate ReconnectingManned(s: Sys) {
    s.sh.sess.state.StateReconnecting? && s.sh.sess.registered ==> Tally(Attempting, s.threads) >= 1
  }

  predicate ChangesAnnounced(s: Sys) {
    s.sh.dirty && !s.sh.sess.state.StateStopping? ==> Tally(OwesEmit, s.threads) >= 1
  }

  /** Whether a shell's exit is on record. */
  predicate ExitRecorded(sess: Session) {
    sess.cancel.Some? && (sess.state.StateStopped? || sess.state.StateErrored?)
  }

  predicate ShellReported(s: Sys) {
    !s.sh.sess.reconnectable ==> Tally(PendingMonitor, s.threads) + One(ExitRecorded(s.sh.sess)) <= 1
  }

  ghost predicate ThreadsOk(c: Policy, s: Sys) {
    forall i :: 0 <= i < |s.threads| ==> ThreadOk(c, s.sh, s.threads[i])
  }

  ghost predicate TalliesOk(s: Sys) {
    && FlagsExact(s)
    && WaitersExact(s)
    && ClosersBounded(s)
    && LiveAccounted(s)
    && StopCovered(s)
    && ReconnectingManned(s)
    && ChangesAnnounced(s)
    && ShellReported(s)
  }

  ghost predicate Inv(c: Policy, s: Sys) {
    SharedOk(c, s.sh) && ThreadsOk(c, s) && TalliesOk(s)
  }

  // ---------------------------------------------------------------- one goroutine's step: the shared state

  /** What no goroutine ever undoes, and what it never touches. */
  ghost predicate Grows(sh: Shared, sh': Shared) {
    && |sh.procs| <= |sh'.procs|
    && |sh.procs| == |sh.chans| && |sh'.procs| == |sh'.chans|
    && (forall p :: 0 <= p < |sh.procs| ==>
         && sh'.procs[p].opts == sh.procs[p].opts
         && sh'.procs[p].waits >= sh.procs[p].waits
         && (sh.procs[p].cancelled ==> sh'.procs[p].cancelled)
         && (sh.procs[p].killed ==> sh'.procs[p].killed))
    && sh'.sess.target == sh.sess.target
    && sh'.sess.reconnectable == sh.sess.reconnectable
  }

  /** Nothing was started and nothing installed. */
  predicate SameHandles(sh: Shared, sh': Shared) {
    && |sh.procs| == |sh'.procs|
    && HandlesOf(sh'.sess) == HandlesOf(sh.sess)
  }

  lemma MonitorGrows(sh: Shared, pc: MonitorPc, p: nat, k: nat, choice: bool)
    requires |sh.procs| == |sh.chans|
    ensures var sh' := AdvanceMonitor(sh, pc, p, k, choice).sh; Grows(sh, sh') && SameHandles(sh, sh')
  {
  }

  lemma ProberGrows(c: Policy, sh: Shared, pc: ProberPc, choice: bool)
    requires |sh.procs| == |sh.chans|
    ensures var sh' := AdvanceProber(c, sh, pc, choice).sh; Grows(sh, sh') && SameHandles(sh, sh')
  {
  }

  lemma StopperGrows(sh: Shared, pc: StopPc, choice: bool)
    requires |sh.procs| == |sh.chans|
    ensures var sh' := AdvanceStopper(sh, pc, choice).sh; Grows(sh, sh') && SameHandles(sh, sh')
  {
  }

  lemma AttemptGrows(c: Policy, sh: Shared, pc: LoopPc, choice: bool)
    requires |sh.procs| == |sh.chans| && Plays(Attempting, Loop(pc))
    ensures Grows(sh, AdvanceLoop(c, sh, pc, choice).sh)
  {
  }

  lemma LoopGrows(c: Policy, sh: Shared, pc: LoopPc, choice: bool)
    requires |sh.procs| == |sh.chans|
    ensures Grows(sh, AdvanceLoop(c, sh, pc, choice).sh)
  {
    if Plays(Attempting, Loop(pc)) {
      AttemptGrows(c, sh, pc, choice);
    }
  }

  lemma StepGrows(c: Policy, sh: Shared, t: Thread, choice: bool)
    requires |sh.procs| == |sh.chans|
    ensures Grows(sh, AdvanceThread(c, sh, t, choice).sh)
    ensures !t.Loop? ==> SameHandles(sh, AdvanceThread(c, sh, t, choice).sh)
  {
    hide AdvanceLoop, AdvanceMonitor, AdvanceProber;
    match t
    case Monitor(pc, p, k) => MonitorGrows(sh, pc, p, k, choice);
    case Loop(pc) => LoopGrows(c, sh, pc, choice);
    case Prober(pc) => ProberGrows(c, sh, pc, choice);
    case Stopper(pc) => StopperGrows(sh, pc, choice);
    case _ =>
  }

  /** Log and counters are untouched. */
  predicate SameCounts(sh: Shared, sh': Shared) {
    sh'.log == sh.log && sh'.sess.attempts == sh.sess.attempts && sh'.sess.consecutiveFailures == sh.sess.consecutiveFailures
  }

  /** Recording one justified event keeps the counters in step, if they change as the event says. */
  lemma Recorded(c: Policy, sh: Shared, sh': Shared, e: Event)
    requires CountsOk(c, sh) && sh'.log == sh.log + [e] && Justified(c, sh.log, e)
    requires sh'.sess.attempts == if IsReset(e) then 0 else sh.sess.attempts + One(e.AttemptBegun?)
    requires sh'.sess.consecutiveFailures
          == if e.ProbeSucceeded? || e.Installed? then 0 else sh.sess.consecutiveFailures + One(e.ProbeFailed?)
    ensures CountsOk(c, sh')
  {
    Snoc(c, sh.log, e);
  }

  lemma TriggerCounts(c: Policy, sh: Shared, manual: bool, next: Thread)
    requires CountsOk(c, sh)
    ensures CountsOk(c, Trigger(sh, manual, next).sh)
  {
    var sh' := Trigger(sh, manual, next).sh;
    if manual && sh.sess.reconnectable {
      Recorded(c, sh, sh', ManualReset);
    } else {
      assert SameCounts(sh, sh');
    }
  }

  lemma ProbeCounts(c: Policy, sh: Shared, ok: bool)
    requires CountsOk(c, sh)
    ensures CountsOk(c, AdvanceProber(c, sh, ApplyResult(ok), false).sh)
  {
    var sh' := AdvanceProber(c, sh, ApplyResult(ok), false).sh;
    var (sess, o) := ProbeSection(c, sh.sess, ok);
    var failed := Put(sh, sess).(log := sh.log + [ProbeFailed]);
    if !CountsProbes(sh.sess) {
      assert SameCounts(sh, sh');
    } else if ok {
      Recorded(c, sh, sh', ProbeSucceeded);
    } else if o.reconnect {
      Recorded(c, sh, failed, ProbeFailed);
      assert sh'.log == failed.log + [ProbeTriggered];
      Recorded(c, failed, sh', ProbeTriggered);
    } else {
      Recorded(c, sh, sh', ProbeFailed);
    }
  }

  lemma HeaderCounts(c: Policy, sh: Shared)
    requires CountsOk(c, sh)
    ensures CountsOk(c, AdvanceLoop(c, sh, CheckHeader, false).sh)
  {
    var sh' := AdvanceLoop(c, sh, CheckHeader, false).sh;
    match HeaderSection(c, sh.sess).1
    case Attempt(n) => Recorded(c, sh, sh', AttemptBegun(n));
    case GaveUp => Recorded(c, sh, sh', LoopGaveUp);
    case _ => assert SameCounts(sh, sh');
  }

  lemma InstallCounts(c: Policy, sh: Shared, p: nat, k: nat)
    requires CountsOk(c, sh)
    ensures CountsOk(c, AdvanceLoop(c, sh, InstallFresh(p, k), false).sh)
  {
    var sh' := AdvanceLoop(c, sh, InstallFresh(p, k), false).sh;
    if InstallSection(sh.sess, p, k).1 {
      Recorded(c, sh, sh', Installed(p));
    } else {
      assert SameCounts(sh, sh');
    }
  }

  /** The goroutine is at one of the four critical sections that write to the log. */
  predicate Records(t: Thread) {
    match t
    case Prober(pc) => pc.ApplyResult?
    case Reconnector(pc) => pc.TriggerManual?
    case Loop(pc) => pc.CheckHeader? || pc.InstallFresh?
    case _ => false
  }

  lemma LoopCounts(c: Policy, sh: Shared, pc: LoopPc, choice: bool)
    requires !Records(Loop(pc))
    ensures SameCounts(sh, AdvanceLoop(c, sh, pc, choice).sh)
  {
  }

  lemma ProberCounts(c: Policy, sh: Shared, pc: ProberPc, choice: bool)
    requires !Records(Prober(pc))
    ensures SameCounts(sh, AdvanceProber(c, sh, pc, choice).sh)
  {
    assert sh.log + [] == sh.log;
  }

  lemma MonitorCounts(sh: Shared, pc: MonitorPc, p: nat, k: nat, choice: bool)
    ensures SameCounts(sh, AdvanceMonitor(sh, pc, p, k, choice).sh)
  {
    assert sh.log + [] == sh.log;
  }

  lemma QuietKeepsCounts(c: Policy, sh: Shared, t: Thread, choice: bool)
    requires !Records(t)
    ensures SameCounts(sh, AdvanceThread(c, sh, t, choice).sh)
  {
    hide AdvanceLoop, AdvanceMonitor, AdvanceProber;
    match t
    case Loop(pc) => LoopCounts(c, sh, pc, choice);
    case Prober(pc) => ProberCounts(c, sh, pc, choice);
    case Monitor(pc, p, k) => MonitorCounts(sh, pc, p, k, choice);
    case Stopper(_) =>
    case _ =>
  }

  lemma KeepsCounts(c: Policy, sh: Shared, t: Thread, choice: bool)
    requires CountsOk(c, sh)
    ensures CountsOk(c, AdvanceThread(c, sh, t, choice).sh)
  {
    if !Records(t) {
      QuietKeepsCounts(c, sh, t, choice);
    } else {
      match t
      case Loop(CheckHeader) => HeaderCounts(c, sh);
      case Loop(InstallFresh(p, k)) => InstallCounts(c, sh, p, k);
      case Prober(ApplyResult(ok)) => ProbeCounts(c, sh, ok);
      case Reconnector(TriggerManual) => TriggerCounts(c, sh, true, Finished);
    }
  }

  lemma MonitorHandles(c: Policy, sh: Shared, pc: MonitorPc, p: nat, k: nat, choice: bool)
    requires HandlesOk(sh) && ThreadOk(c, sh, Monitor(pc, p, k))
    ensures HandlesOk(AdvanceMonitor(sh, pc, p, k, choice).sh)
  {
  }

  lemma ProberHandles(c: Policy, sh: Shared, pc: ProberPc, choice: bool)
    requires HandlesOk(sh) && ThreadOk(c, sh, Prober(pc))
    ensures HandlesOk(AdvanceProber(c, sh, pc, choice).sh)
  {
    hide ProbeEvents, CountsProbes, OptsFromSession;
  }

  lemma StopperHandles(sh: Shared, pc: StopPc, choice: bool)
    requires HandlesOk(sh)
    ensures HandlesOk(AdvanceStopper(sh, pc, choice).sh)
  {
  }

  lemma StartHandles(c: Policy, sh: Shared, try: Try, choice: bool)
    requires HandlesOk(sh) && ThreadOk(c, sh, Loop(StartFresh(try)))
    ensures HandlesOk(AdvanceLoop(c, sh, StartFresh(try), choice).sh)
  {
  }

  lemma InstallHandles(c: Policy, sh: Shared, p: nat, k: nat)
    requires HandlesOk(sh) && ThreadOk(c, sh, Loop(InstallFresh(p, k)))
    ensures HandlesOk(AdvanceLoop(c, sh, InstallFresh(p, k), false).sh)
  {
  }

  lemma HeaderHandles(c: Policy, sh: Shared)
    requires HandlesOk(sh) && ThreadOk(c, sh, Loop(CheckHeader))
    ensures HandlesOk(AdvanceLoop(c, sh, CheckHeader, false).sh)
  {
    hide OptsFromSession;
  }

  lemma LoopHandles(c: Policy, sh: Shared, pc: LoopPc, choice: bool)
    requires HandlesOk(sh) && ThreadOk(c, sh, Loop(pc))
    ensures HandlesOk(AdvanceLoop(c, sh, pc, choice).sh)
  {
    match pc
    case StartFresh(try) => StartHandles(c, sh, try, choice);
    case InstallFresh(p, k) => InstallHandles(c, sh, p, k);
    case CheckHeader => HeaderHandles(c, sh);
    case _ =>
  }

  lemma KeepsShared(c: Policy, sh: Shared, t: Thread, choice: bool)
    requires SharedOk(c, sh) && ThreadOk(c, sh, t)
    ensures SharedOk(c, AdvanceThread(c, sh, t, choice).sh)
  {
    hide AdvanceLoop, AdvanceMonitor, AdvanceProber;
    KeepsCounts(c, sh, t, choice);
    match t
    case Monitor(pc, p, k) => MonitorHandles(c, sh, pc, p, k, choice);
    case Loop(pc) => LoopHandles(c, sh, pc, choice);
    case Prober(pc) => ProberHandles(c, sh, pc, choice);
    case Stopper(pc) => StopperHandles(sh, pc, choice);
    case _ =>
  }

  // ---------------------------------------------------------------- one goroutine's step: itself and the others

  lemma MonitorKeepsOwn(c: Policy, sh: Shared, pc: MonitorPc, p: nat, k: nat, choice: bool)
    requires HandlesOk(sh) && ThreadOk(c, sh, Monitor(pc, p, k))
    ensures var o := AdvanceMonitor(sh, pc, p, k, choice);
            ThreadOk(c, o.sh, o.next) && (o.spawn.Some? ==> ThreadOk(c, o.sh, o.spawn.value))
  {
  }

  lemma ProberKeepsOwn(c: Policy, sh: Shared, pc: ProberPc, choice: bool)
    requires HandlesOk(sh) && ThreadOk(c, sh, Prober(pc))
    ensures var o := AdvanceProber(c, sh, pc, choice);
            ThreadOk(c, o.sh, o.next) && (o.spawn.Some? ==> ThreadOk(c, o.sh, o.spawn.value))
  {
  }

  lemma StopperKeepsOwn(c: Policy, sh: Shared, pc: StopPc, choice: bool)
    requires HandlesOk(sh) && ThreadOk(c, sh, Stopper(pc))
    ensures var o := AdvanceStopper(sh, pc, choice);
            ThreadOk(c, o.sh, o.next) && o.spawn.None?
  {
  }

  predicate OwnKept(c: Policy, o: Out) {
    ThreadOk(c, o.sh, o.next) && (o.spawn.Some? ==> ThreadOk(c, o.sh, o.spawn.value))
  }

  lemma HeaderKeepsOwn(c: Policy, sh: Shared, choice: bool)
    requires sh.sess.reconnectable
    ensures OwnKept(c, AdvanceLoop(c, sh, CheckHeader, choice))
  {
    hide OptsFromSession;
  }

  lemma StartKeepsOwn(c: Policy, sh: Shared, pc: LoopPc, choice: bool)
    requires HandlesOk(sh) && sh.sess.reconnectable && LoopOk(c, sh, pc) && (pc.StartFresh? || pc.InstallFresh?)
    ensures OwnKept(c, AdvanceLoop(c, sh, pc, choice))
  {
    hide Confined, OptsFromSession;
  }

  lemma AttemptKeepsOwn(c: Policy, sh: Shared, pc: LoopPc, choice: bool)
    requires sh.sess.reconnectable && LoopOk(c, sh, pc) && CurrentTry(pc).Some? && !pc.StartFresh?
    ensures OwnKept(c, AdvanceLoop(c, sh, pc, choice))
  {
    hide OptsFromSession;
  }

  lemma LeavingKeepsOwn(c: Policy, sh: Shared, pc: LoopPc, choice: bool)
    requires HandlesOk(sh) && sh.sess.reconnectable && LoopOk(c, sh, pc) && Leaving(Loop(pc))
    ensures OwnKept(c, AdvanceLoop(c, sh, pc, choice))
  {
    hide TryOk, OptsFromSession, InstalledLive;
  }

  lemma LoopKeepsOwn(c: Policy, sh: Shared, pc: LoopPc, choice: bool)
    requires HandlesOk(sh) && ThreadOk(c, sh, Loop(pc))
    ensures OwnKept(c, AdvanceLoop(c, sh, pc, choice))
  {
    hide HandlesOk, LoopOk, AdvanceLoop, OwnKept;
    if pc.CheckHeader? {
      HeaderKeepsOwn(c, sh, choice);
    } else if pc.StartFresh? || pc.InstallFresh? {
      StartKeepsOwn(c, sh, pc, choice);
    } else if CurrentTry(pc).Some? {
      AttemptKeepsOwn(c, sh, pc, choice);
    } else {
      LeavingKeepsOwn(c, sh, pc, choice);
    }
  }

  lemma KeepsOwn(c: Policy, sh: Shared, t: Thread, choice: bool)
    requires SharedOk(c, sh) && ThreadOk(c, sh, t)
    ensures var o := AdvanceThread(c, sh, t, choice);
            ThreadOk(c, o.sh, o.next) && (o.spawn.Some? ==> ThreadOk(c, o.sh, o.spawn.value))
  {
    hide AdvanceLoop, AdvanceMonitor, AdvanceProber;
    match t
    case Monitor(pc, p, k) => MonitorKeepsOwn(c, sh, pc, p, k, choice);
    case Loop(pc) => LoopKeepsOwn(c, sh, pc, choice);
    case Prober(pc) => ProberKeepsOwn(c, sh, pc, choice);
    case Stopper(pc) => StopperKeepsOwn(c, sh, pc, choice);
    case _ =>
  }

  /** Another goroutine keeps what it knows, as only one of the two can be a reconnect loop. */
  lemma KeepsOther(c: Policy, sh: Shared, sh': Shared, u: Thread)
    requires HandlesOk(sh) && Grows(sh, sh') && ThreadOk(c, sh, u)
    requires SameHandles(sh, sh') || (!u.Loop? && sh.sess.reconnectable)
    ensures ThreadOk(c, sh', u)
  {
  }

  // ---------------------------------------------------------------- one goroutine's step: what it adds to a tally

  /** How many of the goroutines a step leaves behind play r. */
  function Gain(r: Role, o: Out): nat {
    One(Plays(r, o.next)) + One(o.spawn.Some? && Plays(r, o.spawn.value))
  }

  function WaitsOf(sh: Shared, p: nat): nat {
    if p < |sh.procs| then sh.procs[p].waits else 0
  }

  function ClosesOf(sh: Shared, k: nat): nat {
    if k < |sh.chans| then sh.chans[k] else 0
  }

  predicate FlagsBalanced(sh: Shared, t: Thread, o: Out) {
    && Gain(LoopActive, o) + One(sh.sess.reconnectInFlight) == One(t.Loop?) + One(o.sh.sess.reconnectInFlight)
    && Gain(ProbeActive, o) + One(sh.sess.probeInFlight) == One(Plays(ProbeActive, t)) + One(o.sh.sess.probeInFlight)
  }

  lemma LoopFlags(c: Policy, sh: Shared, pc: LoopPc, choice: bool)
    requires sh.sess.reconnectInFlight
    ensures FlagsBalanced(sh, Loop(pc), AdvanceLoop(c, sh, pc, choice))
  {
  }

  lemma ProberFlags(c: Policy, sh: Shared, pc: ProberPc, choice: bool)
    requires Plays(ProbeActive, Prober(pc)) ==> sh.sess.probeInFlight
    ensures FlagsBalanced(sh, Prober(pc), AdvanceProber(c, sh, pc, choice))
  {
  }

  lemma MonitorFlags(sh: Shared, pc: MonitorPc, p: nat, k: nat, choice: bool)
    ensures FlagsBalanced(sh, Monitor(pc, p, k), AdvanceMonitor(sh, pc, p, k, choice))
  {
  }

  lemma FlagBalance(c: Policy, sh: Shared, t: Thread, choice: bool)
    requires t.Loop? ==> sh.sess.reconnectInFlight
    requires Plays(ProbeActive, t) ==> sh.sess.probeInFlight
    ensures FlagsBalanced(sh, t, AdvanceThread(c, sh, t, choice))
  {
    hide AdvanceLoop, AdvanceMonitor, AdvanceProber, FlagsBalanced;
    match t
    case Monitor(pc, p, k) => MonitorFlags(sh, pc, p, k, choice);
    case Loop(pc) => LoopFlags(c, sh, pc, choice);
    case Prober(pc) => ProberFlags(c, sh, pc, choice);
    case _ => OtherFlags(c, sh, t, choice);
  }

  lemma OtherFlags(c: Policy, sh: Shared, t: Thread, choice: bool)
    requires !t.Monitor? && !t.Loop? && !t.Prober?
    ensures FlagsBalanced(sh, t, AdvanceThread(c, sh, t, choice))
  {
  }

  lemma MonitorBalance(c: Policy, sh: Shared, pc: MonitorPc, q: nat, k: nat, choice: bool, p: nat)
    requires HandlesOk(sh) && ThreadOk(c, sh, Monitor(pc, q, k))
    ensures var o := AdvanceMonitor(sh, pc, q, k, choice);
            WaitsBalanced(sh, Monitor(pc, q, k), o, p) && ClosesBalanced(sh, Monitor(pc, q, k), o, p)
  {
  }

  predicate WaitsBalanced(sh: Shared, t: Thread, o: Out, p: nat) {
    Gain(Waiter(p), o) + WaitsOf(o.sh, p) == One(Plays(Waiter(p), t)) + WaitsOf(sh, p) + One(|sh.procs| <= p < |o.sh.procs|)
  }

  predicate ClosesBalanced(sh: Shared, t: Thread, o: Out, k: nat) {
    Gain(Closer(k), o) + ClosesOf(o.sh, k) <= One(Plays(Closer(k), t)) + ClosesOf(sh, k) + One(|sh.procs| <= k < |o.sh.procs|)
  }

  lemma LoopWaiters(c: Policy, sh: Shared, pc: LoopPc, choice: bool, p: nat)
    requires HandlesOk(sh) && LoopOk(c, sh, pc)
    ensures WaitsBalanced(sh, Loop(pc), AdvanceLoop(c, sh, pc, choice), p)
  {
    hide HeaderSection, InstallSection, Confined, TryOk, InstalledLive, OptsFromSession;
  }

  lemma LoopClosers(c: Policy, sh: Shared, pc: LoopPc, choice: bool, k: nat)
    requires HandlesOk(sh) && LoopOk(c, sh, pc)
    ensures ClosesBalanced(sh, Loop(pc), AdvanceLoop(c, sh, pc, choice), k)
  {
  }

  lemma ProberBalance(c: Policy, sh: Shared, pc: ProberPc, choice: bool, p: nat)
    requires |sh.procs| == |sh.chans|
    ensures var o := AdvanceProber(c, sh, pc, choice); WaitsBalanced(sh, Prober(pc), o, p) && ClosesBalanced(sh, Prober(pc), o, p)
  {
  }

  lemma OtherBalance(c: Policy, sh: Shared, t: Thread, choice: bool, p: nat)
    requires |sh.procs| == |sh.chans| && !t.Monitor? && !t.Loop? && !t.Prober?
    ensures var o := AdvanceThread(c, sh, t, choice); WaitsBalanced(sh, t, o, p) && ClosesBalanced(sh, t, o, p)
  {
  }

  lemma WaitBalance(c: Policy, sh: Shared, t: Thread, choice: bool, p: nat)
    requires HandlesOk(sh) && ThreadOk(c, sh, t)
    ensures var o := AdvanceThread(c, sh, t, choice); WaitsBalanced(sh, t, o, p) && ClosesBalanced(sh, t, o, p)
  {
    hide AdvanceLoop, AdvanceMonitor, AdvanceProber, Confined, LoopOk, WaitsBalanced, ClosesBalanced;
    match t
    case Monitor(pc, q, k) => MonitorBalance(c, sh, pc, q, k, choice, p);
    case Loop(pc) => LoopWaiters(c, sh, pc, choice, p); LoopClosers(c, sh, pc, choice, p);
    case Prober(pc) => ProberBalance(c, sh, pc, choice, p);
    case _ => OtherBalance(c, sh, t, choice, p);
  }

  // ---------------------------------------------------------------- one goroutine's step: obligations passed on

  /** A live subprocess that is not the installed one is in the hands of the goroutine or was before. */
  predicate LivePassedOn(sh: Shared, t: Thread, o: Out, p: nat) {
    p < |o.sh.procs| && o.sh.procs[p].Live() && o.sh.sess.cancel != Some(p) ==>
      || Gain(FreshHolder(p), o) >= 1
      || (p < |sh.procs| && sh.procs[p].Live() && sh.sess.cancel != Some(p) && !Plays(FreshHolder(p), t))
  }

  predicate StopPassedOn(sh: Shared, t: Thread, o: Out) {
    o.sh.sess.state.IsStop() && InstalledLive(o.sh) ==>
      || Gain(Cancelling(o.sh.sess.cancel.value), o) >= 1
      || (sh.sess.state.IsStop() && InstalledLive(sh) && o.sh.sess.cancel == sh.sess.cancel
          && !Plays(Cancelling(sh.sess.cancel.value), t))
  }

  predicate ReconnectPassedOn(sh: Shared, t: Thread, o: Out) {
    o.sh.sess.state.StateReconnecting? && o.sh.sess.registered ==>
      || Gain(Attempting, o) >= 1
      || (sh.sess.state.StateReconnecting? && sh.sess.registered && !Plays(Attempting, t))
  }

  predicate EmitPassedOn(sh: Shared, t: Thread, o: Out) {
    o.sh.dirty && !o.sh.sess.state.StateStopping? ==>
      || Gain(OwesEmit, o) >= 1
      || (sh.dirty && !sh.sess.state.StateStopping? && !Plays(OwesEmit, t))
  }

  predicate PassedOn(sh: Shared, t: Thread, o: Out) {
    StopPassedOn(sh, t, o) && ReconnectPassedOn(sh, t, o) && EmitPassedOn(sh, t, o)
  }

  /** Only a start makes a subprocess live, and only an install or a cancel takes one out of the loop's hands. */
  lemma LoopHandsLive(c: Policy, sh: Shared, pc: LoopPc, choice: bool, p: nat)
    requires !pc.StartFresh? && !pc.InstallFresh?
    ensures var o := AdvanceLoop(c, sh, pc, choice);
            && |o.sh.procs| == |sh.procs| && o.sh.sess.cancel == sh.sess.cancel
            && (p < |sh.procs| && o.sh.procs[p].Live() ==> sh.procs[p].Live() && !Plays(FreshHolder(p), Loop(pc)))
  {
    hide OptsFromSession, InstallSection;
  }

  lemma StartPassesLive(c: Policy, sh: Shared, pc: LoopPc, choice: bool, p: nat)
    requires HandlesOk(sh) && LoopOk(c, sh, pc) && (pc.StartFresh? || pc.InstallFresh?)
    ensures LivePassedOn(sh, Loop(pc), AdvanceLoop(c, sh, pc, choice), p)
  {
    hide Confined, TryOk, OptsFromSession;
  }

  lemma LoopPassesLive(c: Policy, sh: Shared, pc: LoopPc, choice: bool, p: nat)
    requires HandlesOk(sh) && LoopOk(c, sh, pc)
    ensures LivePassedOn(sh, Loop(pc), AdvanceLoop(c, sh, pc, choice), p)
  {
    hide HandlesOk, LoopOk, AdvanceLoop;
    if pc.StartFresh? || pc.InstallFresh? {
      StartPassesLive(c, sh, pc, choice, p);
    } else {
      LoopHandsLive(c, sh, pc, choice, p);
    }
  }

  /** A loop takes no session into a stop state, and installs nothing in one. */
  lemma LoopEntersNoStop(c: Policy, sh: Shared, pc: LoopPc, choice: bool)
    ensures var sh' := AdvanceLoop(c, sh, pc, choice).sh;
            sh'.sess.state.IsStop() ==> sh.sess.state.IsStop() && sh'.sess.cancel == sh.sess.cancel
  {
  }

  lemma LoopRevivesNothing(c: Policy, sh: Shared, pc: LoopPc, choice: bool)
    requires sh.sess.cancel.Some? ==> sh.sess.cancel.value < |sh.procs|
    ensures var sh' := AdvanceLoop(c, sh, pc, choice).sh;
            sh'.sess.cancel == sh.sess.cancel && InstalledLive(sh') ==> InstalledLive(sh)
  {
    hide HeaderSection;
  }

  lemma LoopPassesStop(c: Policy, sh: Shared, pc: LoopPc, choice: bool)
    requires HandlesOk(sh)
    ensures StopPassedOn(sh, Loop(pc), AdvanceLoop(c, sh, pc, choice))
  {
    LoopEntersNoStop(c, sh, pc, choice);
    LoopRevivesNothing(c, sh, pc, choice);
    hide AdvanceLoop, InstalledLive, Confined;
  }

  lemma LoopPassesEmit(c: Policy, sh: Shared, pc: LoopPc, choice: bool)
    ensures EmitPassedOn(sh, Loop(pc), AdvanceLoop(c, sh, pc, choice))
  {
  }

  lemma LoopPassesReconnect(c: Policy, sh: Shared, pc: LoopPc, choice: bool)
    ensures ReconnectPassedOn(sh, Loop(pc), AdvanceLoop(c, sh, pc, choice))
  {
  }

  lemma LoopPasses(c: Policy, sh: Shared, pc: LoopPc, choice: bool)
    requires HandlesOk(sh) && LoopOk(c, sh, pc)
    ensures PassedOn(sh, Loop(pc), AdvanceLoop(c, sh, pc, choice))
  {
    hide HandlesOk, LoopOk, AdvanceLoop, StopPassedOn, ReconnectPassedOn, EmitPassedOn;
    LoopPassesReconnect(c, sh, pc, choice);
    LoopPassesStop(c, sh, pc, choice);
    LoopPassesEmit(c, sh, pc, choice);
  }

  lemma MonitorPasses(c: Policy, sh: Shared, pc: MonitorPc, p: nat, k: nat, choice: bool)
    requires HandlesOk(sh) && ThreadOk(c, sh, Monitor(pc, p, k))
    ensures PassedOn(sh, Monitor(pc, p, k), AdvanceMonitor(sh, pc, p, k, choice))
  {
  }

  lemma ProberPasses(c: Policy, sh: Shared, pc: ProberPc, choice: bool)
    requires HandlesOk(sh) && ThreadOk(c, sh, Prober(pc))
    ensures PassedOn(sh, Prober(pc), AdvanceProber(c, sh, pc, choice))
  {
    hide HandlesOk, ProbeEvents, CountsProbes;
  }

  lemma StopperPasses(c: Policy, sh: Shared, pc: StopPc, choice: bool)
    requires HandlesOk(sh) && ThreadOk(c, sh, Stopper(pc))
    ensures PassedOn(sh, Stopper(pc), AdvanceStopper(sh, pc, choice))
  {
  }

  lemma Passes(c: Policy, sh: Shared, t: Thread, choice: bool)
    requires HandlesOk(sh) && ThreadOk(c, sh, t)
    ensures PassedOn(sh, t, AdvanceThread(c, sh, t, choice))
  {
    hide AdvanceLoop, AdvanceMonitor, AdvanceProber, AdvanceStopper, HandlesOk, PassedOn;
    match t
    case Monitor(pc, p, k) => MonitorPasses(c, sh, pc, p, k, choice);
    case Loop(pc) => LoopPasses(c, sh, pc, choice);
    case Prober(pc) => ProberPasses(c, sh, pc, choice);
    case Stopper(pc) => StopperPasses(c, sh, pc, choice);
    case _ => OtherPasses(c, sh, t, choice);
  }

  lemma OtherPasses(c: Policy, sh: Shared, t: Thread, choice: bool)
    requires ThreadOk(c, sh, t) && !t.Monitor? && !t.Loop? && !t.Prober? && !t.Stopper?
    ensures PassedOn(sh, t, AdvanceThread(c, sh, t, choice))
  {
  }

  lemma PassesLive(c: Policy, sh: Shared, t: Thread, choice: bool, p: nat)
    requires HandlesOk(sh) && ThreadOk(c, sh, t)
    ensures LivePassedOn(sh, t, AdvanceThread(c, sh, t, choice), p)
  {
    hide AdvanceLoop;
    StepGrows(c, sh, t, choice);
    match t
    case Loop(pc) => LoopPassesLive(c, sh, pc, choice, p);
    case _ =>
  }

  lemma MonitorReports(c: Policy, sh: Shared, pc: MonitorPc, p: nat, k: nat, choice: bool)
    requires HandlesOk(sh) && ThreadOk(c, sh, Monitor(pc, p, k)) && !sh.sess.reconnectable
    ensures var o := AdvanceMonitor(sh, pc, p, k, choice);
            Gain(PendingMonitor, o) + One(ExitRecorded(o.sh.sess)) <=
            One(Plays(PendingMonitor, Monitor(pc, p, k))) + One(ExitRecorded(sh.sess))
  {
  }

  lemma ReportBalance(c: Policy, sh: Shared, t: Thread, choice: bool)
    requires HandlesOk(sh) && ThreadOk(c, sh, t) && !sh.sess.reconnectable
    ensures var o := AdvanceThread(c, sh, t, choice);
            Gain(PendingMonitor, o) + One(ExitRecorded(o.sh.sess)) <=
            One(Plays(PendingMonitor, t)) + One(ExitRecorded(sh.sess))
  {
    hide AdvanceMonitor;
    StepGrows(c, sh, t, choice);
    match t
    case Monitor(pc, p, k) => MonitorReports(c, sh, pc, p, k, choice);
    case Prober(pc) =>
    case Stopper(pc) =>
    case _ =>
  }
}
