/** What holds after every run of every interleaving, stated without the invariant's vocabulary. */
module Theorems {
  import opened SessionTypes
  import opened Sections
  import opened Lifecycle
  import opened Accounting
  import opened Tallies
  import opened Invariant
  import opened Preservation

  // ---------------------------------------------------------------- subprocesses

  /** At most one subprocess is neither cancelled nor reaped. */
  lemma AtMostOneLive(c: Policy, s: Sys, acts: seq<Action>, p: nat, q: nat)
    requires Init(s) && Runs(c, s, acts)
    requires var procs := After(c, s, acts).sh.procs;
             p < |procs| && q < |procs| && procs[p].Live() && procs[q].Live()
    ensures p == q
  {
    Reachable(c, s, acts);
    var t := After(c, s, acts);
    if p != q {
      var held := if t.sh.sess.cancel == Some(p) then q else p;
      var i := TallyWitness(FreshHolder(held), t.threads);
      assert ThreadOk(c, t.sh, t.threads[i]);
      var other := if held == p then q else p;
      if t.sh.sess.cancel != Some(other) {
        var j := TallyWitness(FreshHolder(other), t.threads);
        OneLoop(t, i, j);
      }
    }
  }

  /** A stop call between its unlock and its cancel of subprocess h. */
  predicate AboutToCancel(t: Thread, h: Option<nat>) {
    t.Stopper? && t.spc.CancelStopped? && t.spc.h.cancel == h
  }

  /** A stopping or stopped session's installed subprocess is done for, or a stop call is about to cancel it. */
  lemma StopLeavesNoOrphan(c: Policy, s: Sys, acts: seq<Action>)
    requires Init(s) && Runs(c, s, acts)
    requires var sh := After(c, s, acts).sh; sh.sess.state.IsStop() && InstalledLive(sh)
    ensures var t := After(c, s, acts);
            exists i :: 0 <= i < |t.threads| && AboutToCancel(t.threads[i], t.sh.sess.cancel)
  {
    Reachable(c, s, acts);
    var t := After(c, s, acts);
    var i := TallyWitness(Cancelling(t.sh.sess.cancel.value), t.threads);
    assert AboutToCancel(t.threads[i], t.sh.sess.cancel);
  }

  /** Once no stop call is before its cancel and no loop is active, a stopped session has no live subprocess at all. */
  lemma NothingLivesAfterStop(c: Policy, s: Sys, acts: seq<Action>, p: nat)
    requires Init(s) && Runs(c, s, acts)
    requires var t := After(c, s, acts);
             && t.sh.sess.state.IsStop() && p < |t.sh.procs|
             && (forall i :: 0 <= i < |t.threads| ==> !t.threads[i].Loop?)
             && (forall i :: 0 <= i < |t.threads| ==> !(t.threads[i].Stopper? && t.threads[i].spc.CancelStopped?))
    ensures !After(c, s, acts).sh.procs[p].Live()
  {
    Reachable(c, s, acts);
    var t := After(c, s, acts);
    if t.sh.procs[p].Live() {
      if t.sh.sess.cancel == Some(p) {
        StopLeavesNoOrphan(c, s, acts);
      } else {
        var i := TallyWitness(FreshHolder(p), t.threads);
      }
    }
  }

  /** t is the goroutine that will wait for subprocess p: p's own monitor, or the loop that holds p. */
  predicate WaitsFor(t: Thread, p: nat) {
    Plays(Waiter(p), t)
  }

  /** Every subprocess is waited for at most once, and until then has exactly one designated waiter. */
  lemma ReapedExactlyOnce(c: Policy, s: Sys, acts: seq<Action>, p: nat)
    requires Init(s) && Runs(c, s, acts) && p < |After(c, s, acts).sh.procs|
    ensures var t := After(c, s, acts);
            && t.sh.procs[p].waits <= 1
            && (t.sh.procs[p].waits == 0 <==> exists i :: 0 <= i < |t.threads| && WaitsFor(t.threads[i], p))
            && (forall i, j :: 0 <= i < |t.threads| && 0 <= j < |t.threads| && WaitsFor(t.threads[i], p) && WaitsFor(t.threads[j], p)
                  ==> i == j)
  {
    Reachable(c, s, acts);
    var t := After(c, s, acts);
    assert Tally(Waiter(p), t.threads) + t.sh.procs[p].waits == 1;
    if t.sh.procs[p].waits == 0 {
      var i := TallyWitness(Waiter(p), t.threads);
      assert WaitsFor(t.threads[i], p);
    }
    forall i | 0 <= i < |t.threads| && WaitsFor(t.threads[i], p) ensures t.sh.procs[p].waits == 0 {
      TallyHit(Waiter(p), t.threads, i);
    }
    forall i, j | 0 <= i < |t.threads| && 0 <= j < |t.threads| && WaitsFor(t.threads[i], p) && WaitsFor(t.threads[j], p)
      ensures i == j
    {
      if i != j {
        TallyTwoHits(Waiter(p), t.threads, if i < j then i else j, if i < j then j else i);
      }
    }
  }

  /** A waitDone channel is closed at most once, after its own subprocess was reaped, and by its own monitor only. */
  lemma DoneChannelsSafe(c: Policy, s: Sys, acts: seq<Action>, k: nat)
    requires Init(s) && Runs(c, s, acts) && k < |After(c, s, acts).sh.chans|
    ensures var t := After(c, s, acts);
            && |t.sh.chans| == |t.sh.procs| && t.sh.chans[k] <= 1
            && (forall i :: 0 <= i < |t.threads| && t.threads[i].Monitor? ==>
                  t.threads[i].cmd == t.threads[i].done < |t.sh.procs|)
            && (forall i :: 0 <= i < |t.threads| && t.threads[i].Monitor? && t.threads[i].mpc.CloseDone? ==>
                  t.sh.chans[t.threads[i].done] == 0 && t.sh.procs[t.threads[i].cmd].waits == 1)
  {
    Reachable(c, s, acts);
    var t := After(c, s, acts);
    forall i | 0 <= i < |t.threads| && t.threads[i].Monitor?
      ensures t.threads[i].cmd == t.threads[i].done < |t.sh.procs|
      ensures t.threads[i].mpc.CloseDone? ==> t.sh.chans[t.threads[i].done] == 0 && t.sh.procs[t.threads[i].cmd].waits == 1
    {
      assert ThreadOk(c, t.sh, t.threads[i]);
      if t.threads[i].mpc.CloseDone? {
        TallyHit(Closer(t.threads[i].done), t.threads, i);
      }
    }
  }

  // ---------------------------------------------------------------- goroutines

  predicate PastGate(t: Thread) {
    t.Prober? && !t.ppc.EnterGate?
  }

  /** Each in-flight flag holds exactly when one goroutine of its kind is there, and there is never a second. */
  lemma InFlightFlagsExact(c: Policy, s: Sys, acts: seq<Action>)
    requires Init(s) && Runs(c, s, acts)
    ensures var t := After(c, s, acts);
            && (t.sh.sess.reconnectInFlight <==> exists i :: 0 <= i < |t.threads| && t.threads[i].Loop?)
            && (t.sh.sess.probeInFlight <==> exists i :: 0 <= i < |t.threads| && PastGate(t.threads[i]))
            && (forall i, j :: 0 <= i < j < |t.threads| ==> !(t.threads[i].Loop? && t.threads[j].Loop?))
            && (forall i, j :: 0 <= i < j < |t.threads| ==> !(PastGate(t.threads[i]) && PastGate(t.threads[j])))
  {
    Reachable(c, s, acts);
    var t := After(c, s, acts);
    if t.sh.sess.reconnectInFlight {
      var i := TallyWitness(LoopActive, t.threads);
    }
    if t.sh.sess.probeInFlight {
      var i := TallyWitness(ProbeActive, t.threads);
      assert PastGate(t.threads[i]);
    }
    forall i | 0 <= i < |t.threads| && t.threads[i].Loop? ensures t.sh.sess.reconnectInFlight {
      TallyHit(LoopActive, t.threads, i);
    }
    forall i | 0 <= i < |t.threads| && PastGate(t.threads[i]) ensures t.sh.sess.probeInFlight {
      TallyHit(ProbeActive, t.threads, i);
    }
    forall i, j | 0 <= i < j < |t.threads|
      ensures !(t.threads[i].Loop? && t.threads[j].Loop?) && !(PastGate(t.threads[i]) && PastGate(t.threads[j]))
    {
      if t.threads[i].Loop? && t.threads[j].Loop? { TallyTwoHits(LoopActive, t.threads, i, j); }
      if PastGate(t.threads[i]) && PastGate(t.threads[j]) { TallyTwoHits(ProbeActive, t.threads, i, j); }
    }
  }

  /** A registered session is Reconnecting only while a loop that is not yet leaving works on it. */
  lemma NeverStrandedReconnecting(c: Policy, s: Sys, acts: seq<Action>)
    requires Init(s) && Runs(c, s, acts)
    requires var sess := After(c, s, acts).sh.sess; sess.registered && sess.state.StateReconnecting?
    ensures var t := After(c, s, acts);
            && t.sh.sess.reconnectInFlight
            && (exists i :: 0 <= i < |t.threads| && t.threads[i].Loop? && !Leaving(t.threads[i]))
            && (forall i :: 0 <= i < |t.threads| ==> !Leaving(t.threads[i]))
  {
    Reachable(c, s, acts);
    var t := After(c, s, acts);
    var i := TallyWitness(Attempting, t.threads);
    TallyHit(LoopActive, t.threads, i);
    forall j | 0 <= j < |t.threads| ensures !Leaving(t.threads[j]) {
      if j != i {
        OneLoop(t, i, j);
      }
    }
  }

  /** When a loop stops working on a session, that is Running, Stopped, Errored or no longer registered. */
  lemma LoopExitsDecided(c: Policy, s: Sys, acts: seq<Action>, i: nat, choice: bool)
    requires Init(s) && Runs(c, s, acts)
    requires var t := After(c, s, acts);
             Enabled(t, Advance(i, choice)) && t.threads[i].Loop? && !Leaving(t.threads[i])
    ensures var t' := Step(c, After(c, s, acts), Advance(i, choice));
            Leaving(t'.threads[i]) ==>
              t'.sh.sess.state in {StateRunning, StateStopped, StateErrored} || !t'.sh.sess.registered
  {
    var t := After(c, s, acts);
    LoopDecides(c, t.sh, t.threads[i].lpc, choice);
  }

  lemma LoopDecides(c: Policy, sh: Shared, pc: LoopPc, choice: bool)
    requires Plays(Attempting, Loop(pc))
    ensures var o := AdvanceLoop(c, sh, pc, choice);
            Leaving(o.next) ==> o.sh.sess.state in {StateRunning, StateStopped, StateErrored} || !o.sh.sess.registered
  {
  }

  /** An unannounced change of state or registration, other than to Stopping, has somebody about to emit an event. */
  lemma EveryChangeAnnounced(c: Policy, s: Sys, acts: seq<Action>)
    requires Init(s) && Runs(c, s, acts)
    requires var sh := After(c, s, acts).sh; sh.dirty && !sh.sess.state.StateStopping?
    ensures var t := After(c, s, acts); exists i :: 0 <= i < |t.threads| && Plays(OwesEmit, t.threads[i])
  {
    Reachable(c, s, acts);
    var t := After(c, s, acts);
    var i := TallyWitness(OwesEmit, t.threads);
  }

  /** What a step owes the event path: an event for every change but that to Stopping. */
  predicate ChangeOwed(before: Session, after: Session, next: Thread) {
    (after.state != before.state && !after.state.StateStopping?) || after.registered != before.registered ==>
      Plays(OwesEmit, next)
  }

  lemma LoopOwes(c: Policy, sh: Shared, pc: LoopPc, choice: bool)
    ensures var o := AdvanceLoop(c, sh, pc, choice); ChangeOwed(sh.sess, o.sh.sess, o.next)
  {
  }

  lemma ProberOwes(c: Policy, sh: Shared, pc: ProberPc, choice: bool)
    ensures var o := AdvanceProber(c, sh, pc, choice); ChangeOwed(sh.sess, o.sh.sess, o.next)
  {
    hide ProbeEvents;
  }

  lemma ThreadOwes(c: Policy, sh: Shared, t: Thread, choice: bool)
    ensures var o := AdvanceThread(c, sh, t, choice); ChangeOwed(sh.sess, o.sh.sess, o.next)
  {
    hide AdvanceLoop, AdvanceProber;
    match t
    case Loop(pc) => LoopOwes(c, sh, pc, choice);
    case Prober(pc) => ProberOwes(c, sh, pc, choice);
    case _ =>
  }

  /** The goroutine that changes the state, other than to Stopping, or the registration will emit an event next. */
  lemma ChangeIsOwed(c: Policy, t: Sys, a: Action)
    requires Enabled(t, a)
    ensures var t' := Step(c, t, a);
            (t'.sh.sess.state != t.sh.sess.state && !t'.sh.sess.state.StateStopping?)
            || t'.sh.sess.registered != t.sh.sess.registered
            ==> a.Advance? && Plays(OwesEmit, t'.threads[a.i])
  {
    hide AdvanceThread;
    if a.Advance? {
      ThreadOwes(c, t.sh, t.threads[a.i], a.choice);
    }
  }

  /** A new session owes an event, too. */
  lemma StartIsOwed(s: Sys)
    requires Init(s)
    ensures exists i :: 0 <= i < |s.threads| && Plays(OwesEmit, s.threads[i])
  {
    assert Plays(OwesEmit, s.threads[0]);
  }

  // ---------------------------------------------------------------- counters

  /** ReconnectAttempts counts the attempts begun since the last reset; each reset buys at most max of them. */
  lemma RespawnsAccounted(c: Policy, s: Sys, acts: seq<Action>)
    requires Init(s) && Runs(c, s, acts)
    ensures var sh := After(c, s, acts).sh;
            && sh.sess.attempts == SinceReset(sh.log) <= c.maxAttempts
            && Attempts(sh.log) <= c.maxAttempts * (1 + Resets(sh.log))
  {
    Reachable(c, s, acts);
    AttemptsBounded(c, After(c, s, acts).sh.log);
  }

  /** Whenever in a run the loop gave up, exactly max attempts had been begun since the last reset. */
  lemma GivesUpAfterMax(c: Policy, s: Sys, acts: seq<Action>, k: nat)
    requires Init(s) && Runs(c, s, acts)
    requires var log := After(c, s, acts).sh.log; k < |log| && log[k].LoopGaveUp?
    ensures SinceReset(After(c, s, acts).sh.log[..k]) == c.maxAttempts
  {
    Reachable(c, s, acts);
    LogOkAt(c, After(c, s, acts).sh.log, k);
  }

  /** consecutiveFailures is the trailing run of counted failures; a probe triggers only once that run is long enough. */
  lemma ProbeThreshold(c: Policy, s: Sys, acts: seq<Action>, k: nat)
    requires Init(s) && Runs(c, s, acts)
    ensures var sh := After(c, s, acts).sh;
            && sh.sess.consecutiveFailures == TrailingFailures(sh.log)
            && (k < |sh.log| && sh.log[k].ProbeTriggered? ==>
                  TrailingFailures(sh.log[..k]) >= c.failureThreshold && k > 0 && sh.log[k - 1].ProbeFailed?)
  {
    Reachable(c, s, acts);
    var log := After(c, s, acts).sh.log;
    if k < |log| {
      LogOkAt(c, log, k);
    }
  }

  lemma FailureTriggers(c: Policy, sh: Shared, choice: bool)
    requires CountsProbes(sh.sess) && sh.sess.consecutiveFailures == TrailingFailures(sh.log)
    ensures var next := AdvanceProber(c, sh, ApplyResult(false), choice).next;
            (next == Prober(TriggerFromProbe) || next == Prober(AnnounceProbe(true)))
            <==> (sh.sess.reconnectable && TrailingFailures(sh.log + [ProbeFailed]) >= c.failureThreshold)
  {
    Snoc(c, sh.log, ProbeFailed);
  }

  lemma CountedFailures(c: Policy, s: Sys, acts: seq<Action>)
    requires Init(s) && Runs(c, s, acts)
    ensures var sh := After(c, s, acts).sh; sh.sess.consecutiveFailures == TrailingFailures(sh.log)
  {
    hide Init, Step, Enabled, ThreadsOk, TalliesOk;
    Reachable(c, s, acts);
  }

  /** A counted failure asks for a reconnect if and only if the session is reconnectable and the run reaches the threshold. */
  lemma ProbeTriggersExactly(c: Policy, s: Sys, acts: seq<Action>, i: nat, choice: bool)
    requires Init(s) && Runs(c, s, acts)
    requires var t := After(c, s, acts);
             Enabled(t, Advance(i, choice)) && t.threads[i] == Prober(ApplyResult(false)) && CountsProbes(t.sh.sess)
    ensures var t := After(c, s, acts);
            var t' := Step(c, t, Advance(i, choice));
            (t'.threads[i] == Prober(TriggerFromProbe) || t'.threads[i] == Prober(AnnounceProbe(true)))
            <==> (t.sh.sess.reconnectable && TrailingFailures(t.sh.log + [ProbeFailed]) >= c.failureThreshold)
  {
    hide AdvanceProber, CountsProbes, Init;
    CountedFailures(c, s, acts);
    FailureTriggers(c, After(c, s, acts).sh, choice);
  }

  // ---------------------------------------------------------------- confinement

  lemma StepKeepsIdentity(c: Policy, s: Sys, a: Action)
    requires Inv(c, s) && Enabled(s, a)
    ensures var s' := Step(c, s, a);
            && s'.sh.sess.target == s.sh.sess.target && s'.sh.sess.reconnectable == s.sh.sess.reconnectable
            && (!s.sh.sess.reconnectable ==> s'.sh.sess.cancel == s.sh.sess.cancel && |s'.sh.procs| == |s.sh.procs|)
  {
    match a
    case Advance(i, choice) =>
      assert ThreadOk(c, s.sh, s.threads[i]);
      StepGrows(c, s.sh, s.threads[i], choice);
    case _ =>
  }

  lemma {:induction false} RunKeepsIdentity(c: Policy, s: Sys, acts: seq<Action>)
    requires Inv(c, s) && Runs(c, s, acts)
    ensures var t := After(c, s, acts);
            && t.sh.sess.target == s.sh.sess.target && t.sh.sess.reconnectable == s.sh.sess.reconnectable
            && (!s.sh.sess.reconnectable ==> t.sh.sess.cancel == s.sh.sess.cancel && |t.sh.procs| == |s.sh.procs|)
    decreases |acts|
  {
    if acts != [] {
      StepKeepsIdentity(c, s, acts[0]);
      StepKeepsInv(c, s, acts[0]);
      RunKeepsIdentity(c, Step(c, s, acts[0]), acts[1..]);
    }
  }

  /** Sessions the manager may not respawn never are, and each kind stays within its own states. */
  lemma KindsConfined(c: Policy, s: Sys, acts: seq<Action>)
    requires Init(s) && Runs(c, s, acts)
    ensures var t := After(c, s, acts).sh;
            && !t.sess.state.StateStarting?
            && t.sess.reconnectable == s.sh.sess.reconnectable
            && (!s.sh.sess.reconnectable ==> |t.procs| == |s.sh.procs| <= 1 && !t.sess.state.StateReconnecting?)
            && (!s.sh.sess.reconnectable && |s.sh.procs| == 1 ==> t.sess.state in {StateRunning, StateStopping, StateStopped, StateErrored})
            && (|s.sh.procs| == 0 ==> t.sess.state in {StateRunning, StateStalled, StateStopping, StateStopped})
            && (|s.sh.procs| == 0 && s.sh.sess.target.typ.TypeShell? ==> !t.sess.state.StateStalled?)
  {
    InitInv(c, s);
    RunKeepsIdentity(c, s, acts);
    Reachable(c, s, acts);
  }

  /** Every respawn uses the options the session was started with. */
  lemma RespawnsUseOriginalOptions(c: Policy, opts: SessionOpts, acts: seq<Action>, p: nat)
    requires Runs(c, Started(opts), acts) && p < |After(c, Started(opts), acts).sh.procs|
    ensures After(c, Started(opts), acts).sh.procs[p].opts == opts
  {
    StartedInv(c, opts);
    RunKeepsIdentity(c, Started(opts), acts);
    RunKeepsInv(c, Started(opts), acts);
  }

  /**
   A session keeps the identity it was given, through every respawn. An adopted session is a shell without
   ports, whatever its options say, and only a started port forward is ever reconnected.
   */
  lemma IdentityKept(c: Policy, opts: SessionOpts, hasChecker: bool, s: Sys, acts: seq<Action>)
    requires s == Started(opts) || s == Adopted(opts) || s == External(opts, hasChecker)
    requires Runs(c, s, acts)
    ensures var t := After(c, s, acts).sh.sess.target;
            && t.instanceID == opts.instanceID && t.instanceName == opts.instanceName && t.profile == opts.profile
            && (s == Adopted(opts) ==> t.typ.TypeShell? && t.localPort == t.remotePort == 0 && t.remoteHost == "")
            && (s != Adopted(opts) ==>
                  && t.typ == opts.typ && t.localPort == opts.localPort
                  && t.remotePort == opts.remotePort && t.remoteHost == opts.remoteHost)
    ensures After(c, s, acts).sh.sess.reconnectable <==> s == Started(opts) && opts.typ.TypePortForward?
  {
    assert Init(s);
    InitInv(c, s);
    RunKeepsIdentity(c, s, acts);
  }
}
