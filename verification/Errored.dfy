/** Errored is not terminal: who can still take a session out of it, and when nobody can. */
module Errored {
  import opened SessionTypes
  import opened Sections
  import opened Lifecycle
  import opened Tallies
  import opened Invariant
  import opened Preservation
  import opened StopFinal
  import opened Reach
  import opened Drive
  import opened StopExact

  // ---------------------------------------------------------------- no loop is in the middle of an attempt

  predicate MidAttempt(t: Thread) {
    Plays(Attempting, t) && !t.lpc.CheckHeader?
  }

  ghost predicate NoneMidAttempt(s: Sys) {
    s.sh.sess.state.StateErrored? ==> forall i :: 0 <= i < |s.threads| ==> !MidAttempt(s.threads[i])
  }

  ghost predicate AtErrored(s: Sys) {
    s.sh.sess.state.StateErrored? && NoneMidAttempt(s)
  }

  /** A step that ends in Errored starts no attempt, and it was Errored before unless a loop gave up or a shell exited. */
  predicate ErrorKept(sh: Shared, t: Thread, o: Out) {
    o.sh.sess.state.StateErrored? ==>
      && (MidAttempt(o.next) ==> sh.sess.state.StateErrored? && MidAttempt(t))
      && (o.spawn.Some? ==> !MidAttempt(o.spawn.value))
      && (sh.sess.state.StateErrored? || t.Loop? || !sh.sess.reconnectable)
  }

  lemma LoopError(c: Policy, sh: Shared, pc: LoopPc, choice: bool)
    ensures ErrorKept(sh, Loop(pc), AdvanceLoop(c, sh, pc, choice))
  {
  }

  lemma MonitorError(sh: Shared, pc: MonitorPc, p: nat, k: nat, choice: bool)
    ensures ErrorKept(sh, Monitor(pc, p, k), AdvanceMonitor(sh, pc, p, k, choice))
  {
  }

  lemma ProberError(c: Policy, sh: Shared, pc: ProberPc, choice: bool)
    ensures ErrorKept(sh, Prober(pc), AdvanceProber(c, sh, pc, choice))
  {
  }

  lemma ThreadError(c: Policy, sh: Shared, t: Thread, choice: bool)
    ensures ErrorKept(sh, t, AdvanceThread(c, sh, t, choice))
  {
    hide AdvanceLoop, AdvanceMonitor, AdvanceProber;
    match t
    case Loop(pc) => LoopError(c, sh, pc, choice);
    case Monitor(pc, p, k) => MonitorError(sh, pc, p, k, choice);
    case Prober(pc) => ProberError(c, sh, pc, choice);
    case Stopper(pc) =>
    case _ =>
  }

  lemma OtherNotMid(c: Policy, s: Sys, i: nat, j: nat)
    requires Inv(c, s) && i < |s.threads| && j < |s.threads| && i != j
    requires s.threads[i].Loop? || !s.sh.sess.reconnectable
    ensures !MidAttempt(s.threads[j])
  {
    assert ThreadOk(c, s.sh, s.threads[j]);
    if s.threads[i].Loop? {
      OneLoop(s, i, j);
    }
  }

  lemma AdvanceKeepsMid(c: Policy, s: Sys, i: nat, choice: bool)
    requires Inv(c, s) && NoneMidAttempt(s) && Enabled(s, Advance(i, choice))
    ensures NoneMidAttempt(Step(c, s, Advance(i, choice)))
  {
    hide Inv, AdvanceThread, MidAttempt;
    var s' := Step(c, s, Advance(i, choice));
    ThreadError(c, s.sh, s.threads[i], choice);
    if s'.sh.sess.state.StateErrored? {
      forall j | 0 <= j < |s'.threads| ensures !MidAttempt(s'.threads[j]) {
        if j < |s.threads| && j != i && !s.sh.sess.state.StateErrored? {
          OtherNotMid(c, s, i, j);
        }
      }
    }
  }

  lemma StepKeepsMid(c: Policy, s: Sys, a: Action)
    requires Inv(c, s) && NoneMidAttempt(s) && Enabled(s, a)
    ensures NoneMidAttempt(Step(c, s, a))
  {
    if a.Advance? {
      AdvanceKeepsMid(c, s, a.i, a.choice);
    }
  }

  lemma {:induction false} RunKeepsMid(c: Policy, s: Sys, acts: seq<Action>)
    requires Inv(c, s) && NoneMidAttempt(s) && Runs(c, s, acts)
    ensures NoneMidAttempt(After(c, s, acts))
    decreases |acts|
  {
    hide Inv, Step, Enabled, NoneMidAttempt;
    if acts != [] {
      StepKeepsMid(c, s, acts[0]);
      StepKeepsInv(c, s, acts[0]);
      RunKeepsMid(c, Step(c, s, acts[0]), acts[1..]);
    }
  }

  // ---------------------------------------------------------------- who can revive the session

  /** A loop that looks at the session now would begin an attempt. */
  predicate AttemptLeft(c: Policy, sess: Session) {
    sess.attempts < c.maxAttempts
  }

  /**
   The goroutine will take a registered Errored session out of Errored: a stop call before its
   critical section; a manual reconnect under way, which resets the attempts; or, if there are attempts
   left, a loop at its header or an automatic trigger under way.
   */
  predicate Revives(c: Policy, sh: Shared, t: Thread) {
    && sh.sess.registered
    && ((t.Stopper? && t.spc.EnterStop?)
        || (t.Loop? && t.lpc.CheckHeader? && AttemptLeft(c, sh.sess))
        || (TriggerUnderWay(sh, t) && (t.Reconnector? || AttemptLeft(c, sh.sess))))
  }

  predicate Disturbs(c: Policy, sh: Shared, t: Thread) {
    Plays(PendingMonitor, t) || Revives(c, sh, t)
  }

  /** All monitors have reported, and nobody is about to revive the session. */
  predicate Resting(c: Policy, s: Sys) {
    forall i :: 0 <= i < |s.threads| ==> !Disturbs(c, s.sh, s.threads[i])
  }

  /** Goroutines and subprocesses alone never take the session out of Errored. */
  ghost predicate ErrorStandsAlone(c: Policy, s: Sys) {
    forall t :: Comes(c, s, t) ==> t.sh.sess.state.StateErrored?
  }

  /** Nothing does, not even further calls. */
  ghost predicate ErrorStands(c: Policy, s: Sys) {
    forall t :: Leads(c, s, t) ==> t.sh.sess.state.StateErrored?
  }

  // ---------------------------------------------------------------- a session at rest stays Errored

  predicate Rested(c: Policy, sh: Shared, o: Out) {
    && o.sh.sess.state.StateErrored?
    && o.sh.sess.reconnectable == sh.sess.reconnectable
    && (o.sh.sess.registered ==> sh.sess.registered && o.sh.sess.attempts == sh.sess.attempts)
    && !Disturbs(c, o.sh, o.next) && (o.spawn.Some? ==> !Disturbs(c, o.sh, o.spawn.value))
  }

  lemma LoopRests(c: Policy, sh: Shared, pc: LoopPc, choice: bool)
    requires sh.sess.state.StateErrored? && !Disturbs(c, sh, Loop(pc)) && !MidAttempt(Loop(pc))
    ensures Rested(c, sh, AdvanceLoop(c, sh, pc, choice))
  {
  }

  lemma MonitorRests(c: Policy, sh: Shared, pc: MonitorPc, p: nat, k: nat, choice: bool)
    requires sh.sess.state.StateErrored? && !Disturbs(c, sh, Monitor(pc, p, k))
    ensures Rested(c, sh, AdvanceMonitor(sh, pc, p, k, choice))
  {
  }

  lemma ProberRests(c: Policy, sh: Shared, pc: ProberPc, choice: bool)
    requires sh.sess.state.StateErrored? && !Disturbs(c, sh, Prober(pc))
    ensures Rested(c, sh, AdvanceProber(c, sh, pc, choice))
  {
  }

  lemma StopperRests(c: Policy, sh: Shared, pc: StopPc, choice: bool)
    requires sh.sess.state.StateErrored? && !Disturbs(c, sh, Stopper(pc))
    ensures Rested(c, sh, AdvanceStopper(sh, pc, choice))
  {
  }

  lemma ReconnectorRests(c: Policy, sh: Shared, pc: ReconnectPc, choice: bool)
    requires sh.sess.state.StateErrored? && !Disturbs(c, sh, Reconnector(pc))
    ensures Rested(c, sh, AdvanceThread(c, sh, Reconnector(pc), choice))
  {
  }

  lemma ThreadRests(c: Policy, sh: Shared, t: Thread, choice: bool)
    requires sh.sess.state.StateErrored? && !Disturbs(c, sh, t) && !MidAttempt(t)
    ensures Rested(c, sh, AdvanceThread(c, sh, t, choice))
  {
    hide AdvanceLoop, AdvanceMonitor, AdvanceProber;
    match t
    case Loop(pc) => LoopRests(c, sh, pc, choice);
    case Monitor(pc, p, k) => MonitorRests(c, sh, pc, p, k, choice);
    case Prober(pc) => ProberRests(c, sh, pc, choice);
    case Stopper(pc) => StopperRests(c, sh, pc, choice);
    case Reconnector(pc) => ReconnectorRests(c, sh, pc, choice);
    case _ =>
  }

  ghost predicate AtRest(c: Policy, s: Sys) {
    AtErrored(s) && Resting(c, s)
  }

  lemma OtherUndisturbed(c: Policy, sh: Shared, o: Out, u: Thread)
    requires Rested(c, sh, o) && !Disturbs(c, sh, u)
    ensures !Disturbs(c, o.sh, u)
  {
  }

  lemma RestStep(c: Policy, s: Sys, a: Action)
    requires Inv(c, s) && AtRest(c, s) && Enabled(s, a) && (IsCall(a) ==> !s.sh.sess.registered)
    ensures AtRest(c, Step(c, s, a)) && (Step(c, s, a).sh.sess.registered ==> s.sh.sess.registered)
  {
    StepKeepsMid(c, s, a);
    hide Inv, AdvanceThread, MidAttempt, Disturbs;
    var s' := Step(c, s, a);
    if a.Advance? {
      var o := AdvanceThread(c, s.sh, s.threads[a.i], a.choice);
      ThreadRests(c, s.sh, s.threads[a.i], a.choice);
      forall j | 0 <= j < |s'.threads| ensures !Disturbs(c, s'.sh, s'.threads[j]) {
        if j < |s.threads| && j != a.i {
          OtherUndisturbed(c, s.sh, o, s.threads[j]);
        }
      }
    } else {
      OutsideRests(c, s, a);
    }
  }

  lemma OutsideRests(c: Policy, s: Sys, a: Action)
    requires Resting(c, s) && Enabled(s, a) && !a.Advance? && (IsCall(a) ==> !s.sh.sess.registered)
    ensures Resting(c, Step(c, s, a))
  {
  }

  lemma {:induction false} RestRun(c: Policy, s: Sys, acts: seq<Action>)
    requires Inv(c, s) && AtRest(c, s) && Runs(c, s, acts) && (NoCalls(acts) || !s.sh.sess.registered)
    ensures After(c, s, acts).sh.sess.state.StateErrored?
    decreases |acts|
  {
    hide Inv, Step, Enabled, Resting, NoneMidAttempt;
    if acts != [] {
      RestStep(c, s, acts[0]);
      StepKeepsInv(c, s, acts[0]);
      RestRun(c, Step(c, s, acts[0]), acts[1..]);
    }
  }

  lemma RestAlone(c: Policy, s: Sys)
    requires Inv(c, s) && AtRest(c, s)
    ensures ErrorStandsAlone(c, s)
    ensures !s.sh.sess.registered ==> ErrorStands(c, s)
  {
    hide Inv, Step, Enabled, AtRest;
    forall t | Comes(c, s, t) ensures t.sh.sess.state.StateErrored? {
      var acts :| Runs(c, s, acts) && After(c, s, acts) == t && NoCalls(acts);
      RestRun(c, s, acts);
    }
    if !s.sh.sess.registered {
      forall t | Leads(c, s, t) ensures t.sh.sess.state.StateErrored? {
        var acts :| Runs(c, s, acts) && After(c, s, acts) == t;
        RestRun(c, s, acts);
      }
    }
  }

  // ---------------------------------------------------------------- a session that is not at rest can leave

  lemma PendingIsReconnectable(c: Policy, s: Sys, i: nat)
    requires Inv(c, s) && s.sh.sess.state.StateErrored? && i < |s.threads| && Plays(PendingMonitor, s.threads[i])
    ensures s.sh.sess.reconnectable
  {
    TallyHit(PendingMonitor, s.threads, i);
  }

  /** A loop at its header of a registered session with attempts left begins one. */
  lemma HeaderRevives(c: Policy, s: Sys, l: nat) returns (t: Sys)
    requires l < |s.threads| && s.threads[l] == Loop(CheckHeader)
    requires s.sh.sess.state.StateErrored? && s.sh.sess.registered && AttemptLeft(c, s.sh.sess)
    ensures Comes(c, s, t) && t.sh.sess.state.StateReconnecting?
  {
    t := Step(c, s, Advance(l, false));
    Next(c, s, Advance(l, false));
  }

  /** With no loop in flight, the trigger spawns one, and that begins an attempt. */
  lemma TriggerRevives(c: Policy, s: Sys, i: nat) returns (t: Sys)
    requires s.sh.sess.state.StateErrored? && s.sh.sess.reconnectable && !s.sh.sess.reconnectInFlight
    requires i < |s.threads| && TriggerUnderWay(s.sh, s.threads[i]) && Revives(c, s.sh, s.threads[i])
    ensures Comes(c, s, t) && t.sh.sess.state.StateReconnecting?
  {
    hide Comes;
    var mid := TriggerFires(c, s, i);
    t := HeaderRevives(c, mid, |s.threads|);
    Then(c, s, mid, t);
  }

  /** A loop in flight gets out of the way first. */
  lemma TriggerAfterLoop(c: Policy, s: Sys, i: nat, l: nat) returns (t: Sys)
    requires s.sh.sess.state.StateErrored? && s.sh.sess.reconnectable
    requires i < |s.threads| && TriggerUnderWay(s.sh, s.threads[i]) && Revives(c, s.sh, s.threads[i])
    requires l < |s.threads| && Leaving(s.threads[l]) && HoldsStarted(s.sh, s.threads[l].lpc)
    ensures Comes(c, s, t) && t.sh.sess.state.StateReconnecting?
  {
    hide Comes, HoldsStarted;
    var mid := LeavingLoopGoes(c, s, l);
    t := TriggerRevives(c, mid, i);
    Then(c, s, mid, t);
  }

  /** A loop that finds no attempt left gives up again, and leaves. */
  lemma TriggerAfterHeader(c: Policy, s: Sys, i: nat, l: nat) returns (t: Sys)
    requires s.sh.sess.state.StateErrored? && s.sh.sess.reconnectable && s.sh.sess.registered
    requires i < |s.threads| && TriggerUnderWay(s.sh, s.threads[i]) && Revives(c, s.sh, s.threads[i])
    requires l < |s.threads| && s.threads[l] == Loop(CheckHeader) && !AttemptLeft(c, s.sh.sess)
    ensures Comes(c, s, t) && t.sh.sess.state.StateReconnecting?
  {
    var mid := Step(c, s, Advance(l, false));
    Next(c, s, Advance(l, false));
    hide Comes;
    t := TriggerAfterLoop(c, mid, i, l);
    Then(c, s, mid, t);
  }

  lemma InFlightLoop(c: Policy, s: Sys) returns (l: nat)
    requires Inv(c, s) && s.sh.sess.reconnectInFlight
    ensures l < |s.threads| && s.threads[l].Loop? && HoldsStarted(s.sh, s.threads[l].lpc)
  {
    l := TallyWitness(LoopActive, s.threads);
    assert ThreadOk(c, s.sh, s.threads[l]);
  }

  lemma TriggerCanLeave(c: Policy, s: Sys, i: nat) returns (t: Sys)
    requires Inv(c, s) && AtErrored(s) && i < |s.threads|
    requires TriggerUnderWay(s.sh, s.threads[i]) && Revives(c, s.sh, s.threads[i])
    ensures Comes(c, s, t) && !t.sh.sess.state.StateErrored?
  {
    TriggerReconnects(c, s, i);
    hide Inv, Comes, TriggerUnderWay, HoldsStarted;
    if !s.sh.sess.reconnectInFlight {
      t := TriggerRevives(c, s, i);
    } else {
      var l := InFlightLoop(c, s);
      assert !MidAttempt(s.threads[l]);
      if Leaving(s.threads[l]) {
        t := TriggerAfterLoop(c, s, i, l);
      } else if AttemptLeft(c, s.sh.sess) {
        t := HeaderRevives(c, s, l);
      } else {
        t := TriggerAfterHeader(c, s, i, l);
      }
    }
  }

  lemma TriggerReconnects(c: Policy, s: Sys, i: nat)
    requires Inv(c, s) && i < |s.threads| && TriggerUnderWay(s.sh, s.threads[i])
    ensures s.sh.sess.reconnectable
  {
    assert ThreadOk(c, s.sh, s.threads[i]);
  }

  lemma DisturbedCanLeave(c: Policy, s: Sys, i: nat) returns (t: Sys)
    requires Inv(c, s) && AtErrored(s) && i < |s.threads| && Disturbs(c, s.sh, s.threads[i])
    ensures Comes(c, s, t) && !t.sh.sess.state.StateErrored?
  {
    if Plays(PendingMonitor, s.threads[i]) {
      PendingIsReconnectable(c, s, i);
      t := ReportStalls(c, s, i);
    } else if s.threads[i].Stopper? {
      t := Step(c, s, Advance(i, false));
      Next(c, s, Advance(i, false));
    } else if s.threads[i].Loop? {
      t := HeaderRevives(c, s, i);
    } else {
      t := TriggerCanLeave(c, s, i);
    }
  }

  lemma CallLeaves(c: Policy, s: Sys) returns (t: Sys)
    requires s.sh.sess.registered
    ensures Leads(c, s, t) && t.sh.sess.state.StateStopping?
  {
    var called := Step(c, s, CallStop);
    t := Step(c, called, Advance(|s.threads|, false));
    Next(c, called, Advance(|s.threads|, false));
    ComesLeads(c, called, t);
    LeadsOn(c, s, CallStop, t);
  }

  // ---------------------------------------------------------------- the theorems

  lemma InitNotErrored(s: Sys)
    requires Init(s)
    ensures NoneMidAttempt(s)
  {
  }

  lemma ReachableErrored(c: Policy, s: Sys, acts: seq<Action>)
    requires Init(s) && Runs(c, s, acts) && After(c, s, acts).sh.sess.state.StateErrored?
    ensures Inv(c, After(c, s, acts)) && AtErrored(After(c, s, acts))
  {
    hide Inv, Step, Enabled, Init;
    InitInv(c, s);
    InitNotErrored(s);
    RunKeepsInv(c, s, acts);
    RunKeepsMid(c, s, acts);
  }

  /**
   In every reachable Errored state: goroutines and subprocesses alone leave the session Errored for
   ever if and only if all its monitors have reported and nobody is about to revive it; and nothing
   else takes it out of Errored either if and only if its monitors have reported and it was removed.
   */
  lemma ErroredStandsExactly(c: Policy, s: Sys, acts: seq<Action>)
    requires Init(s) && Runs(c, s, acts) && After(c, s, acts).sh.sess.state.StateErrored?
    ensures var t := After(c, s, acts);
            && (ErrorStandsAlone(c, t) <==> Resting(c, t))
            && (ErrorStands(c, t) <==> MonitorsDone(t) && !t.sh.sess.registered)
  {
    hide Inv, Step, Enabled;
    ReachableErrored(c, s, acts);
    var t := After(c, s, acts);
    if Resting(c, t) {
      RestAlone(c, t);
      if t.sh.sess.registered {
        var u := CallLeaves(c, t);
      }
    } else {
      var i :| 0 <= i < |t.threads| && Disturbs(c, t.sh, t.threads[i]);
      var u := DisturbedCanLeave(c, t, i);
      ComesLeads(c, t, u);
    }
  }

  /** The installed subprocess of an Errored session is live: its own monitor has yet to report. */
  lemma LiveHasMonitor(c: Policy, s: Sys) returns (m: nat)
    requires Inv(c, s) && InstalledLive(s.sh)
    ensures m < |s.threads| && Plays(PendingMonitor, s.threads[m])
  {
    var p := s.sh.sess.cancel.value;
    m := TallyWitness(Waiter(p), s.threads);
    assert ThreadOk(c, s.sh, s.threads[m]);
  }

  /** A session that was given up on while its subprocess was live comes back to Stalled when that exits. */
  lemma LiveErroredCanStall(c: Policy, s: Sys, acts: seq<Action>) returns (u: Sys)
    requires Init(s) && Runs(c, s, acts)
    requires var sh := After(c, s, acts).sh; sh.sess.state.StateErrored? && InstalledLive(sh)
    ensures Comes(c, After(c, s, acts), u) && u.sh.sess.state.StateStalled?
  {
    ReachableErrored(c, s, acts);
    var t := After(c, s, acts);
    var m := LiveHasMonitor(c, t);
    PendingIsReconnectable(c, t, m);
    u := ReportStalls(c, t, m);
  }
}
